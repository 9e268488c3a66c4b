/** `makeChildElementSelector`: a cache keyed by three identities that hands
    back the same element object until the derived props, the forwarded ref or
    the wrapped component changes. */
module ChildElement {
  import opened Values

  /** The element `<WrappedComponent {...childProps} ref={forwardRef} />`;
      creating one allocates a new object. */
  class Element {
    const component: ComponentId
    const props: DerivedId
    const ref: Option<RefId>

    constructor (component: ComponentId, props: DerivedId, ref: Option<RefId>)
      ensures this.component == component && this.props == props && this.ref == ref
    {
      this.component := component;
      this.props := props;
      this.ref := ref;
    }
  }

  class ChildElementSelector {
    var lastChildProps: Option<DerivedId>
    /** `None` is both "no call yet" and an `undefined` ref, as in the source. */
    var lastForwardRef: Option<RefId>
    var lastComponent: Option<ComponentId>
    var lastChildElement: Option<Element>

    /** The cached element is the one built from the cached keys. */
    ghost predicate Valid()
      reads this
    {
      (lastChildProps.Some? || lastComponent.Some? ==> lastChildElement.Some?) &&
      (lastChildElement.Some? ==>
        lastChildProps == Some(lastChildElement.value.props) &&
        lastComponent == Some(lastChildElement.value.component) &&
        lastForwardRef == lastChildElement.value.ref)
    }

    constructor ()
      ensures Valid()
      ensures lastChildProps == None && lastForwardRef == None && lastComponent == None && lastChildElement == None
    {
      lastChildProps, lastForwardRef, lastComponent, lastChildElement := None, None, None, None;
    }

    /** The three keys of a call equal the cached ones. */
    predicate Unchanged(component: ComponentId, childProps: DerivedId, forwardRef: Option<RefId>)
      reads this
    {
      lastChildProps == Some(childProps) && lastForwardRef == forwardRef && lastComponent == Some(component)
    }

    /** `selectChildElement(WrappedComponent, childProps, forwardRef)`. The
        element returned always shows this call's keys; it is the cached object
        when no key changed identity, and a new one that is cached otherwise. */
    method SelectChildElement(component: ComponentId, childProps: DerivedId, forwardRef: Option<RefId>)
      returns (e: Element)
      requires Valid()
      modifies this
      ensures Valid()
      ensures e.component == component && e.props == childProps && e.ref == forwardRef
      ensures old(Unchanged(component, childProps, forwardRef)) ==>
        old(lastChildElement) == Some(e) && unchanged(this)
      ensures !old(Unchanged(component, childProps, forwardRef)) ==>
        fresh(e) && lastChildElement == Some(e) && Unchanged(component, childProps, forwardRef)
    {
      if lastChildProps != Some(childProps) || lastForwardRef != forwardRef || lastComponent != Some(component) {
        lastChildProps := Some(childProps);
        lastForwardRef := forwardRef;
        lastComponent := Some(component);
        var element := new Element(component, childProps, forwardRef);
        lastChildElement := Some(element);
      }
      e := lastChildElement.value;
    }
  }
}
