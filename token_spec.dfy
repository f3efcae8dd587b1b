/**
 * One scope table of the token bookkeeping (the session table or the
 * pageview table) as a value: the scope's random id, its generation counter
 * `:sg`, and the sequence number given to each activity name. The source
 * keeps all three in one string map; here the two reserved keys are fields
 * and the counter an integer.
 */
module TokenSpec {
  import opened IdFormat

  /** A nullable field. */
  datatype Option<T> = None | Some(value: T)

  datatype Table = Table(id: string, sg: nat, names: map<string, nat>)

  /**
   * The table invariant: the id has the `new_id` format, and the stored
   * sequence numbers are pairwise distinct and all below the counter.
   */
  ghost predicate TableValid(t: Table) {
    && IsTokenId(t.id)
    && t.sg >= 1
    && (forall n :: n in t.names ==> 1 <= t.names[n] < t.sg)
    && (forall a, b :: a in t.names && b in t.names && a != b ==> t.names[a] != t.names[b])
  }

  /** `new_table`: a fresh id, counter 1, no activities. */
  function NewTable(draw: seq<nat>): (t: Table)
    requires IsDraw(draw)
    ensures TableValid(t)
    ensures t.sg == 1 && |t.names| == 0 && ParseId(t.id) == draw
  {
    DrawnIdFormat(draw);
    Table(NewId(draw), 1, map[])
  }

  /**
   * The table a `*_check` leaves in place: the existing one, or a new one
   * built from `draw` when the field was still null.
   */
  function Current(t: Option<Table>, draw: seq<nat>): (r: Table)
    requires IsDraw(draw)
    ensures (t.Some? ==> TableValid(t.value)) ==> TableValid(r)
    ensures t.Some? ==> r == t.value
    ensures t.None? ==> r.sg == 1 && |r.names| == 0 && r.id == NewId(draw)
  {
    if t.Some? then t.value else NewTable(draw)
  }

  /**
   * The table update of `activity`: a new name gets the current counter and
   * the counter grows by one; a known name changes nothing.
   */
  function Activate(t: Table, name: string): (r: Table)
    requires TableValid(t)
    ensures TableValid(r) && r.id == t.id && name in r.names
    ensures name in t.names ==> r == t
    ensures name !in t.names ==>
              && r.names[name] == t.sg && r.sg == t.sg + 1
              && r.names.Keys == t.names.Keys + {name}
              && (forall n :: n in t.names ==> r.names[n] == t.names[n])
  {
    if name in t.names then t
    else Table(t.id, t.sg + 1, t.names[name := t.sg])
  }

  /** The table update of `activity_reset`: forget `name`, keep the counter. */
  function Reset(t: Table, name: string): (r: Table)
    ensures r.id == t.id && r.sg == t.sg
    ensures r.names.Keys == t.names.Keys - {name}
    ensures forall n :: n in r.names ==> r.names[n] == t.names[n]
    ensures TableValid(t) ==> TableValid(r)
    ensures name !in t.names ==> r == t
  {
    assert name !in t.names ==> t.names - {name} == t.names;
    Table(t.id, t.sg, t.names - {name})
  }

  /** The activity id `activity` returns for `name`, once it is in the table. */
  function ActivityOf(t: Table, name: string): (s: string)
    requires name in t.names
    ensures |s| == |t.id| + |Hex04(t.names[name])| && s[..|t.id|] == t.id
    ensures IsLowerHex(s[|t.id|..]) && ParseHex(s[|t.id|..]) == t.names[name]
  {
    ActivityId(t.id, t.names[name])
  }

  /** Distinct activity names of one scope get distinct activity ids. */
  lemma ActivityIdsDistinct(t: Table, a: string, b: string)
    requires TableValid(t) && a in t.names && b in t.names && a != b
    ensures ActivityOf(t, a) != ActivityOf(t, b)
  {
  }

  /** Activating a name twice is activating it once. */
  lemma ActivateIdempotent(t: Table, name: string)
    requires TableValid(t)
    ensures Activate(Activate(t, name), name) == Activate(t, name)
  {
  }

  /**
   * The counter never goes back: after a reset, the same name is given a
   * strictly larger sequence number than it had.
   */
  lemma ReactivatedIsLarger(t: Table, name: string)
    requires TableValid(t) && name in t.names
    ensures Activate(Reset(t, name), name).names[name] > t.names[name]
  {
  }
}
