/** The field store that wraps the settings form: a map of field values and
    the set of keys the user has touched ("dirty" keys). This module holds its
    operations on values; the form class applies them to its own state. */
module FormFields {
  import opened JsValues

  /** `updateFields(patch)`: the keys of `patch` take its values, every other
      field is left as it was. */
  function Merge(fields: map<string, Value>, patch: map<string, Value>): (r: map<string, Value>)
    ensures r.Keys == fields.Keys + patch.Keys
    ensures forall k :: k in patch ==> r[k] == patch[k]
    ensures forall k :: k in fields && k !in patch ==> r[k] == fields[k]
  {
    fields + patch
  }

  /** `omit(obj, keys)`: the object without the given keys. */
  function Omit(obj: map<string, Value>, keys: set<string>): (r: map<string, Value>)
    ensures r.Keys == obj.Keys - keys
    ensures forall k :: k in r ==> r[k] == obj[k]
  {
    obj - keys
  }

  /** A server refresh: the derived fields minus the dirty keys are written
      into the form. Dirty keys and keys the refresh does not carry keep their
      values; every other derived key takes the refreshed value. */
  function Reconcile(fields: map<string, Value>, dirty: set<string>, derived: map<string, Value>): (r: map<string, Value>)
    ensures r.Keys == fields.Keys + (derived.Keys - dirty)
    ensures forall k :: k in fields && (k in dirty || k !in derived) ==> r[k] == fields[k]
    ensures forall k :: k in derived && k !in dirty ==> r[k] == derived[k]
  {
    Merge(fields, Omit(derived, dirty))
  }

  /** Applying the same refresh twice changes nothing the first did not. */
  lemma ReconcileIdempotent(fields: map<string, Value>, dirty: set<string>, derived: map<string, Value>)
    ensures Reconcile(Reconcile(fields, dirty, derived), dirty, derived) == Reconcile(fields, dirty, derived)
  {
  }

  /** A run of refreshes, oldest first, with no dirty key cleared in between. */
  function RefreshAll(fields: map<string, Value>, dirty: set<string>, snapshots: seq<map<string, Value>>): map<string, Value>
    decreases |snapshots|
  {
    if snapshots == [] then fields
    else RefreshAll(Reconcile(fields, dirty, snapshots[0]), dirty, snapshots[1..])
  }

  /** However many refreshes arrive, a dirty field keeps the value the user
      gave it, and no field disappears. */
  lemma {:induction false} RefreshAllKeepsDirty(fields: map<string, Value>, dirty: set<string>, snapshots: seq<map<string, Value>>)
    ensures fields.Keys <= RefreshAll(fields, dirty, snapshots).Keys
    ensures forall k :: k in fields && k in dirty ==> RefreshAll(fields, dirty, snapshots)[k] == fields[k]
    decreases |snapshots|
  {
    if snapshots != [] {
      RefreshAllKeepsDirty(Reconcile(fields, dirty, snapshots[0]), dirty, snapshots[1..]);
    }
  }

  /** After a run of refreshes, every clean key the latest refresh carries
      holds the latest refreshed value: last arrived wins. */
  lemma {:induction false} RefreshAllLatestWins(fields: map<string, Value>, dirty: set<string>, snapshots: seq<map<string, Value>>)
    requires snapshots != []
    ensures forall k :: k in snapshots[|snapshots| - 1] && k !in dirty ==>
      k in RefreshAll(fields, dirty, snapshots) && RefreshAll(fields, dirty, snapshots)[k] == snapshots[|snapshots| - 1][k]
    decreases |snapshots|
  {
    var next := Reconcile(fields, dirty, snapshots[0]);
    if |snapshots| > 1 {
      RefreshAllLatestWins(next, dirty, snapshots[1..]);
    } else {
      assert RefreshAll(next, dirty, snapshots[1..]) == next;
    }
  }
}
