/**
 * The play card of the timeline: a component whose state (`isToggled`,
 * `dropdownValue`, `isDropdownOpen`) changes on clicks, hovers and
 * dropdown choices. The callbacks the parent passes in are modelled by
 * what they receive: each handler reports whether `onToggle` fired and the
 * attributes handed to `onPlayChange`, if any.
 */
module GameEventCard {
  import opened Common
  import opened PlayAttributes

  datatype CardState = NotAffected | Changed | Affected

  /** What one user action passed to the parent's callbacks. */
  datatype Effects = Effects(toggleFired: bool, playChange: Option<Attrs>)

  const NoEffects := Effects(false, None)

  class GameEvent {
    const attrs: Option<Attrs>
    const hasOnToggle: bool
    const hasOnPlayChange: bool
    const options: PlayOptions
    const initialDropdownValue: string

    var isToggled: bool
    var dropdownValue: string
    var isDropdownOpen: bool

    ghost predicate Valid()
      reads this
    {
      options == Classify(attrs)
      && (attrs.Some? ==> PlayAttributes.Valid(attrs.value))
      && initialDropdownValue == (if options.Dropdown? then options.currentValue else "")
    }

    /** The first render: the initial values of the component's state hooks. */
    constructor (attrs: Option<Attrs>, hasOnToggle: bool, hasOnPlayChange: bool)
      requires attrs.Some? ==> PlayAttributes.Valid(attrs.value)
      ensures Valid()
      ensures this.attrs == attrs && this.hasOnToggle == hasOnToggle && this.hasOnPlayChange == hasOnPlayChange
      ensures isToggled <==> options.Toggle? && options.currentState == Failure
      ensures dropdownValue == initialDropdownValue
      ensures !isDropdownOpen
    {
      this.attrs := attrs;
      this.hasOnToggle := hasOnToggle;
      this.hasOnPlayChange := hasOnPlayChange;
      var o := Classify(attrs);
      this.options := o;
      var initial := if o.Dropdown? then o.currentValue else "";
      this.initialDropdownValue := initial;
      isToggled := o.Toggle? && o.currentState == Failure;
      dropdownValue := initial;
      isDropdownOpen := false;
    }

    /** The state the toggle card shows. */
    function ShownState(): ToggleState
      reads this
    {
      Shown(isToggled)
    }

    /**
     * `handleToggle`: flip the toggle, fire `onToggle`, and send the
     * rewritten attributes when the parent listens for play changes.
     */
    method HandleToggle() returns (e: Effects)
      requires Valid()
      modifies this
      ensures Valid()
      ensures isToggled == !old(isToggled)
      ensures dropdownValue == old(dropdownValue) && isDropdownOpen == old(isDropdownOpen)
      ensures e.toggleFired == hasOnToggle
      ensures e.playChange == if hasOnPlayChange && attrs.Some? then Some(TogglePayload(attrs.value, isToggled)) else None
    {
      var newToggleState := !isToggled;
      isToggled := newToggleState;
      var sent := None;
      if hasOnPlayChange && attrs.Some? {
        sent := Some(TogglePayload(attrs.value, newToggleState));
      }
      e := Effects(hasOnToggle, sent);
    }

    /**
     * `handleDropdownChange`: take the new value, close the menu, fire
     * `onToggle` exactly when the choice moves away from or back to the
     * initial value, and send the rewritten attributes.
     */
    method HandleDropdownChange(value: string) returns (e: Effects)
      requires Valid()
      modifies this
      ensures Valid()
      ensures dropdownValue == value && !isDropdownOpen && isToggled == old(isToggled)
      ensures e.toggleFired <==>
        hasOnToggle && ((old(dropdownValue) == initialDropdownValue) != (value == initialDropdownValue))
      ensures e.playChange == if hasOnPlayChange && attrs.Some? then Some(DropdownPayload(attrs.value, value)) else None
    {
      var fromInitial := dropdownValue == initialDropdownValue;
      var toInitial := value == initialDropdownValue;
      dropdownValue := value;
      isDropdownOpen := false;
      var fired := false;
      if (fromInitial && !toInitial) || (!fromInitial && toInitial) {
        fired := hasOnToggle;
      }
      var sent := None;
      if hasOnPlayChange && attrs.Some? {
        sent := Some(DropdownPayload(attrs.value, value));
      }
      e := Effects(fired, sent);
    }

    /** `handleCardClick`: only an active toggle card reacts to a click. */
    method HandleCardClick(cardState: CardState, disabled: bool) returns (e: Effects)
      requires Valid()
      modifies this
      ensures Valid()
      ensures var acts := !disabled && cardState != Affected && options.Toggle?;
        (acts ==> isToggled == !old(isToggled) && e.toggleFired == hasOnToggle
                  && e.playChange == (if hasOnPlayChange && attrs.Some? then Some(TogglePayload(attrs.value, isToggled)) else None))
        && (!acts ==> isToggled == old(isToggled) && e == NoEffects)
      ensures dropdownValue == old(dropdownValue) && isDropdownOpen == old(isDropdownOpen)
    {
      if !disabled && cardState != Affected && options.Toggle? && !options.Dropdown? {
        e := HandleToggle();
      } else {
        e := NoEffects;
      }
    }

    /** `handleCardHover`: an active dropdown card opens its menu. */
    method HandleCardHover(cardState: CardState, disabled: bool)
      requires Valid()
      modifies this
      ensures Valid()
      ensures isDropdownOpen == (if !disabled && cardState != Affected && options.Dropdown? then true else old(isDropdownOpen))
      ensures isToggled == old(isToggled) && dropdownValue == old(dropdownValue)
    {
      if !disabled && cardState != Affected && options.Dropdown? {
        isDropdownOpen := true;
      }
    }

    /** `handleCardLeave`: a dropdown card closes its menu. */
    method HandleCardLeave()
      requires Valid()
      modifies this
      ensures Valid()
      ensures isDropdownOpen == (if options.Dropdown? then false else old(isDropdownOpen))
      ensures isToggled == old(isToggled) && dropdownValue == old(dropdownValue)
    {
      if options.Dropdown? {
        isDropdownOpen := false;
      }
    }
  }

  /**
   * Clicking a fresh toggle card twice: the first click sends attributes
   * whose card shows the clicked state, and the second click sends the
   * original attributes back.
   */
  method ClickTwice(a: Attrs, cardState: CardState) returns (first: Effects, second: Effects)
    requires PlayAttributes.Valid(a) && Classify(Some(a)).Toggle? && cardState != Affected
    ensures first.playChange.Some? && second.playChange.Some?
    ensures Classify(first.playChange) == Classify(Some(a)).(currentState := if Classify(Some(a)).currentState == Success then Failure else Success)
    ensures ToggleTarget(a).Some?
    ensures Get(second.playChange.value, ToggleTarget(a).value) == Some(Bool(TruthyAt(a, ToggleTarget(a).value)))
    ensures forall k :: Some(k) != ToggleTarget(a) ==> Get(second.playChange.value, k) == Get(a, k)
  {
    var card := new GameEvent(Some(a), true, true);
    var initiallyToggled := card.isToggled;
    first := card.HandleCardClick(cardState, false);
    TogglePayloadShowsClick(a, !initiallyToggled);
    second := card.HandleCardClick(cardState, false);
  }

  /**
   * A pass card's dropdown: moving from the initial label to `v`, then to
   * another non-initial label `w`, then back fires `onToggle` on the first
   * and last choice only, and each choice sends attributes whose card shows
   * the chosen label.
   */
  method ChooseAwayAndBack(a: Attrs, v: string, w: string) returns (first: Effects, second: Effects, third: Effects)
    requires PlayAttributes.Valid(a) && Classify(Some(a)).Dropdown?
    requires v in PassOutcomes && w in PassOutcomes
    requires v != Classify(Some(a)).currentValue && w != Classify(Some(a)).currentValue
    ensures first.toggleFired && !second.toggleFired && third.toggleFired
    ensures first.playChange.Some? && Classify(first.playChange) == Dropdown(PassOutcomes, v)
    ensures second.playChange.Some? && Classify(second.playChange) == Dropdown(PassOutcomes, w)
    ensures third.playChange.Some? && Classify(third.playChange) == Classify(Some(a))
  {
    var card := new GameEvent(Some(a), true, true);
    var initial := card.initialDropdownValue;
    first := card.HandleDropdownChange(v);
    DropdownPayloadShowsChoice(a, v);
    second := card.HandleDropdownChange(w);
    DropdownPayloadShowsChoice(a, w);
    third := card.HandleDropdownChange(initial);
    DropdownPayloadShowsChoice(a, initial);
  }
}
