/**
 * The changeable attributes of a play as the front end receives them (a
 * JSON object), the way the play card classifies them into a widget, and
 * the attribute objects the card sends back when the user changes the play.
 *
 * An object is a sequence of entries in key order: spreading an object
 * keeps that order, and assigning a key that is not there appends it.
 */
module PlayAttributes {
  import opened Common
  import opened Text

  /**
   * A JSON value, kept only as far as the card and the server look at it:
   * a boolean, `null`, or any other value with its truthiness.
   */
  datatype AttrValue = Bool(b: bool) | Null | Other(truthy: bool)
  {
    predicate Truthy() {
      match this
      case Bool(b) => b
      case Null => false
      case Other(t) => t
    }
  }

  datatype Entry = Entry(key: string, value: AttrValue)

  type Attrs = seq<Entry>

  /** A JSON object never holds the same key twice. */
  predicate Valid(a: Attrs) {
    forall i, j :: 0 <= i < j < |a| ==> a[i].key != a[j].key
  }

  /** Position of `k` in `a`, if present. */
  function Find(a: Attrs, k: string): (r: Option<nat>)
    ensures r.Some? ==> r.value < |a| && a[r.value].key == k
    ensures r.Some? ==> forall j :: 0 <= j < r.value ==> a[j].key != k
    ensures r.None? <==> forall i :: 0 <= i < |a| ==> a[i].key != k
  {
    if a == [] then None
    else if a[0].key == k then Some(0)
    else
      match Find(a[1..], k)
      case None => None
      case Some(i) => Some(i + 1)
  }

  /** `attrs.k !== undefined`. */
  predicate Has(a: Attrs, k: string) {
    Find(a, k).Some?
  }

  function Get(a: Attrs, k: string): (r: Option<AttrValue>)
    ensures r.Some? <==> Has(a, k)
  {
    match Find(a, k)
    case None => None
    case Some(i) => Some(a[i].value)
  }

  /** The truthiness of `attrs.k`; `undefined` is falsy. */
  predicate TruthyAt(a: Attrs, k: string) {
    Get(a, k).Some? && Get(a, k).value.Truthy()
  }

  /** `newAttributes.k = v`: overwrite in place, or append a new key. */
  function Set(a: Attrs, k: string, v: AttrValue): (r: Attrs)
    requires Valid(a)
    ensures Valid(r)
    ensures Get(r, k) == Some(v)
    ensures forall k' :: k' != k ==> Get(r, k') == Get(a, k')
    ensures Has(a, k) ==> |r| == |a| && forall i :: 0 <= i < |a| ==> r[i].key == a[i].key
    ensures !Has(a, k) ==> r == a + [Entry(k, v)]
  {
    match Find(a, k)
    case Some(i) =>
      var r := a[i := Entry(k, v)];
      FindSameKeys(a, r);
      r
    case None =>
      var r := a + [Entry(k, v)];
      forall k' | k' != k ensures Get(r, k') == Get(a, k') {
        FindAppend(a, Entry(k, v), k');
      }
      FindAppend(a, Entry(k, v), k);
      r
  }

  lemma {:induction false} FindSameKeys(a: Attrs, b: Attrs)
    requires |a| == |b| && forall i :: 0 <= i < |a| ==> a[i].key == b[i].key
    ensures forall k :: Find(a, k) == Find(b, k)
  {
    forall k ensures Find(a, k) == Find(b, k) {
      FindSameKeysAt(a, b, k);
    }
  }

  lemma {:induction false} FindSameKeysAt(a: Attrs, b: Attrs, k: string)
    requires |a| == |b| && forall i :: 0 <= i < |a| ==> a[i].key == b[i].key
    ensures Find(a, k) == Find(b, k)
  {
    if a != [] && a[0].key != k {
      FindSameKeysAt(a[1..], b[1..], k);
    }
  }

  lemma {:induction false} FindAppend(a: Attrs, e: Entry, k: string)
    requires forall i :: 0 <= i < |a| ==> a[i].key != e.key
    ensures k != e.key ==> Find(a + [e], k) == Find(a, k)
    ensures k == e.key ==> Find(a + [e], k) == Some(|a|)
  {
    if a != [] {
      assert (a + [e])[1..] == a[1..] + [e];
      FindAppend(a[1..], e, k);
    }
  }

  /**
   * Position of the first entry whose value is a boolean: the first element
   * of `Object.keys(attrs).filter(key => typeof attrs[key] === 'boolean')`.
   */
  function FirstBoolIndex(a: Attrs): (r: Option<nat>)
    ensures r.Some? ==> r.value < |a| && a[r.value].value.Bool?
    ensures r.Some? ==> forall j :: 0 <= j < r.value ==> !a[j].value.Bool?
    ensures r.None? <==> forall i :: 0 <= i < |a| ==> !a[i].value.Bool?
  {
    if a == [] then None
    else if a[0].value.Bool? then Some(0)
    else
      match FirstBoolIndex(a[1..])
      case None => None
      case Some(i) => Some(i + 1)
  }

  function FirstBoolKey(a: Attrs): Option<string> {
    match FirstBoolIndex(a)
    case None => None
    case Some(i) => Some(a[i].key)
  }

  /** In a well-formed object a key is found at the one place it sits. */
  lemma FindKeyAt(a: Attrs, i: nat)
    requires Valid(a) && i < |a|
    ensures Find(a, a[i].key) == Some(i)
  {
  }

  /** The first boolean position depends only on which values are booleans. */
  lemma {:induction false} FirstBoolIndexSameShape(a: Attrs, r: Attrs)
    requires |r| == |a| && forall i :: 0 <= i < |a| ==> (r[i].value.Bool? <==> a[i].value.Bool?)
    ensures FirstBoolIndex(r) == FirstBoolIndex(a)
  {
    if a != [] && !a[0].value.Bool? {
      FirstBoolIndexSameShape(a[1..], r[1..]);
    }
  }

  datatype ToggleState = Success | Failure

  /** The widget a play card shows: `{hasOptions, isToggleable, ...}`. */
  datatype PlayOptions =
    | ReadOnly
    | Dropdown(options: seq<string>, currentValue: string)
    | Toggle(successState: string, failureState: string, currentState: ToggleState)

  const PassOutcomes: seq<string> := ["Complete", "Incomplete", "Interception"]

  /** The dropdown label a pass's attributes stand for. */
  function PassLabel(a: Attrs): (r: string)
    ensures r in PassOutcomes
  {
    if TruthyAt(a, "is_interception") then "Interception"
    else if TruthyAt(a, "is_complete") then "Complete"
    else "Incomplete"
  }

  /** `getOptionsFromAttributes`: `None` is a missing (falsy) attribute object. */
  function Classify(attrs: Option<Attrs>): (r: PlayOptions)
    ensures attrs.None? ==> r.ReadOnly?
    ensures r.Dropdown? <==> attrs.Some? && Has(attrs.value, "is_interception")
    ensures r.Dropdown? ==> r.options == PassOutcomes && r.currentValue in r.options
    ensures r.ReadOnly? <==>
      (attrs.None? ||
        (!Has(attrs.value, "is_complete") && !Has(attrs.value, "is_interception")
         && !Has(attrs.value, "called") && FirstBoolKey(attrs.value).None?))
  {
    match attrs
    case None => ReadOnly
    case Some(a) =>
      if Has(a, "is_complete") || Has(a, "is_interception") then
        if Has(a, "is_interception") then Dropdown(PassOutcomes, PassLabel(a))
        else Toggle("Complete", "Incomplete", if TruthyAt(a, "is_complete") then Success else Failure)
      else if Has(a, "called") then
        Toggle("No Penalty", "Penalty", if TruthyAt(a, "called") then Failure else Success)
      else
        match FirstBoolKey(a)
        case Some(k) => Toggle("Success", "Failure", if TruthyAt(a, k) then Success else Failure)
        case None => ReadOnly
  }

  /**
   * The attributes sent after a toggle click as written: a completion is
   * the negation of the new toggle, a penalty is the toggle itself, and so
   * is any other boolean attribute.
   */
  function TogglePayloadAsWritten(a: Attrs, newToggled: bool): (r: Attrs)
    requires Valid(a)
    ensures Valid(r)
    ensures |r| == |a| && forall i :: 0 <= i < |a| ==> r[i].key == a[i].key
    ensures ToggleTarget(a).Some? ==>
      Get(r, ToggleTarget(a).value) == Some(Bool(if ToggleTarget(a).value == "is_complete" then !newToggled else newToggled))
    ensures forall k :: Some(k) != ToggleTarget(a) ==> Get(r, k) == Get(a, k)
  {
    if Has(a, "is_complete") then Set(a, "is_complete", Bool(!newToggled))
    else if Has(a, "called") then Set(a, "called", Bool(newToggled))
    else
      match FirstBoolKey(a)
      case Some(k) => Set(a, k, Bool(newToggled))
      case None => a
  }

  /** The key a toggle click rewrites, if any. */
  function ToggleTarget(a: Attrs): Option<string> {
    if Has(a, "is_complete") then Some("is_complete")
    else if Has(a, "called") then Some("called")
    else FirstBoolKey(a)
  }

  /**
   * The attributes a toggle click sends, with the generic boolean branch
   * negated like the completion branch, so that a toggled card ("failure")
   * sends `false`.
   */
  function TogglePayload(a: Attrs, newToggled: bool): (r: Attrs)
    requires Valid(a)
    ensures Valid(r)
    ensures |r| == |a| && forall i :: 0 <= i < |a| ==> r[i].key == a[i].key
    ensures ToggleTarget(a).Some? ==>
      Get(r, ToggleTarget(a).value) == Some(Bool(if ToggleTarget(a).value == "called" then newToggled else !newToggled))
    ensures forall k :: Some(k) != ToggleTarget(a) ==> Get(r, k) == Get(a, k)
  {
    if Has(a, "is_complete") then Set(a, "is_complete", Bool(!newToggled))
    else if Has(a, "called") then Set(a, "called", Bool(newToggled))
    else
      match FirstBoolKey(a)
      case Some(k) => Set(a, k, Bool(!newToggled))
      case None => a
  }

  /**
   * The attributes sent after a dropdown choice: only a pass's two flags
   * change, and only for one of the three known labels.
   */
  function DropdownPayload(a: Attrs, value: string): (r: Attrs)
    requires Valid(a)
    ensures Valid(r)
    ensures (Has(a, "is_complete") || Has(a, "is_interception")) && value in PassOutcomes ==>
      Get(r, "is_complete") == Some(Bool(value == "Complete"))
      && Get(r, "is_interception") == Some(Bool(value == "Interception"))
    ensures forall k :: k != "is_complete" && k != "is_interception" ==> Get(r, k) == Get(a, k)
    ensures !(Has(a, "is_complete") || Has(a, "is_interception")) || value !in PassOutcomes ==> r == a
  {
    if Has(a, "is_complete") || Has(a, "is_interception") then
      if value == "Complete" then Set(Set(a, "is_complete", Bool(true)), "is_interception", Bool(false))
      else if value == "Incomplete" then Set(Set(a, "is_complete", Bool(false)), "is_interception", Bool(false))
      else if value == "Interception" then Set(Set(a, "is_complete", Bool(false)), "is_interception", Bool(true))
      else a
    else a
  }

  /** The state a toggle card shows when `isToggled` holds. */
  function Shown(toggled: bool): ToggleState {
    if toggled then Failure else Success
  }

  lemma FirstBoolKeyAfterSet(a: Attrs, k: string, b: bool)
    requires Valid(a) && FirstBoolKey(a) == Some(k)
    ensures FirstBoolKey(Set(a, k, Bool(b))) == Some(k)
  {
    var i := FirstBoolIndex(a).value;
    FindKeyAt(a, i);
    FirstBoolIndexSameShape(a, Set(a, k, Bool(b)));
  }

  /**
   * With the corrected payload, the card the server's reply would build
   * shows what the clicked card shows: classifying the payload yields the
   * same toggle, in the state `Shown(newToggled)`.
   */
  lemma TogglePayloadShowsClick(a: Attrs, newToggled: bool)
    requires Valid(a) && Classify(Some(a)).Toggle?
    ensures Classify(Some(TogglePayload(a, newToggled))) == Classify(Some(a)).(currentState := Shown(newToggled))
  {
    var r := TogglePayload(a, newToggled);
    FindSameKeys(a, r);
    if Has(a, "is_complete") {
      assert TruthyAt(r, "is_complete") == !newToggled;
      assert Classify(Some(r)) == Toggle("Complete", "Incomplete", Shown(newToggled));
    } else if Has(a, "called") {
      assert TruthyAt(r, "called") == newToggled;
      assert Classify(Some(r)) == Toggle("No Penalty", "Penalty", Shown(newToggled));
    } else {
      var k := FirstBoolKey(a).value;
      FirstBoolKeyAfterSet(a, k, !newToggled);
      assert TruthyAt(r, k) == !newToggled;
      assert Classify(Some(r)) == Toggle("Success", "Failure", Shown(newToggled));
    }
  }

  /**
   * Choosing a label in a pass's dropdown sends attributes whose dropdown
   * shows that same label.
   */
  lemma DropdownPayloadShowsChoice(a: Attrs, value: string)
    requires Valid(a) && Classify(Some(a)).Dropdown? && value in PassOutcomes
    ensures Classify(Some(DropdownPayload(a, value))) == Dropdown(PassOutcomes, value)
  {
  }

  /**
   * As written, a card whose toggle is a boolean attribute other than a
   * completion or a penalty sends the attribute's unchanged value on its
   * first click, while the card itself switches to the other state.
   */
  lemma GenericToggleSendsUnchangedValue(a: Attrs)
    requires Valid(a) && !Has(a, "is_complete") && !Has(a, "is_interception") && !Has(a, "called")
    requires FirstBoolKey(a).Some?
    ensures var initiallyToggled := Classify(Some(a)).currentState == Failure;
      var sent := TogglePayloadAsWritten(a, !initiallyToggled);
      sent == a && Classify(Some(sent)).currentState != Shown(!initiallyToggled)
  {
    var i := FirstBoolIndex(a).value;
    var k := a[i].key;
    FindKeyAt(a, i);
    assert a[i := Entry(k, a[i].value)] == a;
  }

  /**
   * The written and the corrected payloads agree on completions and
   * penalties; on any other boolean attribute the written one sends what
   * the corrected one sends for the opposite click.
   */
  lemma TogglePayloadAsWrittenFlipped(a: Attrs, newToggled: bool)
    requires Valid(a)
    ensures ToggleTarget(a) in {Some("is_complete"), Some("called"), None} ==>
      TogglePayloadAsWritten(a, newToggled) == TogglePayload(a, newToggled)
    ensures ToggleTarget(a) !in {Some("is_complete"), Some("called"), None} ==>
      TogglePayloadAsWritten(a, newToggled) == TogglePayload(a, !newToggled)
  {
  }
}
