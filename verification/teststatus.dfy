/**
 * The Test Status card: a tally of test assignments by status, shown as
 * four fixed rows.
 */
module TestStatus {
  import opened Js
  import opened Text

  /** The property name a status value becomes when it indexes an object. */
  function PropertyKey(v: JsStr): string
  {
    match v
    case Str(s) => s
    case Null => "null"
    case Undefined => "undefined"
  }

  function Keys(statuses: seq<JsStr>): (r: seq<string>)
    ensures |r| == |statuses|
    ensures forall i :: 0 <= i < |r| ==> r[i] == PropertyKey(statuses[i])
  {
    seq(|statuses|, i requires 0 <= i < |statuses| => PropertyKey(statuses[i]))
  }

  /** The `statusCounts` reduce over the assignments' statuses, in order. */
  function Tally(statuses: seq<JsStr>): (r: map<string, nat>)
    ensures forall k :: k in r ==> 1 <= r[k] <= |statuses|
    ensures forall i :: 0 <= i < |statuses| ==> PropertyKey(statuses[i]) in r
  {
    if statuses == [] then map[]
    else
      var acc := Tally(statuses[..|statuses| - 1]);
      var key := PropertyKey(statuses[|statuses| - 1]);
      acc[key := (if key in acc then acc[key] else 0) + 1]
  }

  /** `statusCounts`: an assignment list still undefined gives the empty tally. */
  function StatusCounts(assignments: Option<seq<JsStr>>): (r: map<string, nat>)
    ensures assignments.None? ==> r == map[]
    ensures assignments.Some? ==> forall k :: k in r ==> 1 <= r[k] <= |assignments.value|
  {
    if assignments.None? then map[] else Tally(assignments.value)
  }

  /** `statusCounts[key] || 0`. */
  function CountFor(counts: map<string, nat>, key: string): nat
  {
    if key in counts then counts[key] else 0
  }

  /**
   * Each assignment bumps exactly its own status: the tally of a key is the
   * number of assignments with that status, and a key is present only when
   * that number is positive.
   */
  lemma {:induction false} TallyCounts(statuses: seq<JsStr>, key: string)
    ensures CountFor(Tally(statuses), key) == CountOf(Keys(statuses), key)
    ensures key in Tally(statuses) <==> CountOf(Keys(statuses), key) > 0
  {
    if statuses != [] {
      var init := statuses[..|statuses| - 1];
      TallyCounts(init, key);
      assert Keys(statuses)[..|statuses| - 1] == Keys(init);
    }
  }

  /** An undefined list shows no counts. */
  lemma UndefinedTallyEmpty(key: string)
    ensures CountFor(StatusCounts(None), key) == 0
  {
  }

  datatype StatusRow = StatusRow(key: string, title: string, color: string, count: nat)

  /** `statusConfig`: the four rows, in their fixed order. */
  /** The four rows, in the fixed order, each with the count of its status. */
  function StatusRows(counts: map<string, nat>): (r: seq<StatusRow>)
    ensures |r| == 4
    ensures forall i :: 0 <= i < 4 ==> r[i].key == ShownStatuses[i] && r[i].count == CountFor(counts, ShownStatuses[i])
  {
    [
      StatusRow("completed", "Completed", "bg-green-500", CountFor(counts, "completed")),
      StatusRow("in_progress", "In Progress", "bg-yellow-500", CountFor(counts, "in_progress")),
      StatusRow("pending", "Pending", "bg-gray-400", CountFor(counts, "pending")),
      StatusRow("overdue", "Overdue", "bg-red-500", CountFor(counts, "overdue"))
    ]
  }

  const ShownStatuses: seq<string> := ["completed", "in_progress", "pending", "overdue"]

  /**
   * Exactly four rows are shown, keyed by the four statuses in order, and
   * each row's count is the number of assignments with that status (zero
   * when none has it).
   */
  lemma RowsShowCounts(statuses: seq<JsStr>)
    ensures var rows := StatusRows(Tally(statuses));
      && |rows| == 4
      && forall i :: 0 <= i < 4 ==> rows[i].key == ShownStatuses[i] && rows[i].count == CountOf(Keys(statuses), ShownStatuses[i])
  {
    TallyCounts(statuses, "completed");
    TallyCounts(statuses, "in_progress");
    TallyCounts(statuses, "pending");
    TallyCounts(statuses, "overdue");
  }

  function RowSum(rows: seq<StatusRow>): nat
  {
    if rows == [] then 0 else RowSum(rows[..|rows| - 1]) + rows[|rows| - 1].count
  }

  /** The number of keys that are one of the four shown statuses. */
  function ShownCount(keys: seq<string>): (n: nat)
    ensures n <= |keys|
  {
    if keys == [] then 0 else ShownCount(keys[..|keys| - 1]) + (if keys[|keys| - 1] in ShownStatuses then 1 else 0)
  }

  lemma {:induction false} ShownCountIsSum(keys: seq<string>)
    ensures ShownCount(keys) ==
      CountOf(keys, "completed") + CountOf(keys, "in_progress") + CountOf(keys, "pending") + CountOf(keys, "overdue")
  {
    if keys != [] {
      ShownCountIsSum(keys[..|keys| - 1]);
    }
  }

  /** Every key is one of the four shown statuses. */
  predicate AllShown(keys: seq<string>)
  {
    forall i :: 0 <= i < |keys| ==> keys[i] in ShownStatuses
  }

  lemma {:induction false} ShownCountFull(keys: seq<string>)
    ensures ShownCount(keys) == |keys| <==> AllShown(keys)
  {
    if keys != [] {
      var init := keys[..|keys| - 1];
      ShownCountFull(init);
      if AllShown(keys) {
        assert forall i :: 0 <= i < |init| ==> init[i] == keys[i];
      }
    }
  }

  lemma AllShownKeys(statuses: seq<JsStr>)
    ensures AllShown(Keys(statuses)) <==> forall i :: 0 <= i < |statuses| ==> PropertyKey(statuses[i]) in ShownStatuses
  {
  }

  lemma RowSumOfFour(rows: seq<StatusRow>)
    requires |rows| == 4
    ensures RowSum(rows) == rows[0].count + rows[1].count + rows[2].count + rows[3].count
  {
    assert RowSum(rows[..1]) == rows[0].count by {
      assert rows[..1][..0] == [];
    }
    assert rows[..2][..1] == rows[..1];
    assert RowSum(rows[..2]) == RowSum(rows[..1]) + rows[1].count;
    assert rows[..3][..2] == rows[..2];
    assert RowSum(rows[..3]) == RowSum(rows[..2]) + rows[2].count;
    assert rows[..3] == rows[..|rows| - 1];
  }

  /** The rows' total counts the assignments whose status is one of the four. */
  lemma RowSumIsShownCount(statuses: seq<JsStr>)
    ensures RowSum(StatusRows(Tally(statuses))) == ShownCount(Keys(statuses))
  {
    var keys := Keys(statuses);
    var counts := Tally(statuses);
    RowSumOfFour(StatusRows(counts));
    TallyCounts(statuses, "completed");
    TallyCounts(statuses, "in_progress");
    TallyCounts(statuses, "pending");
    TallyCounts(statuses, "overdue");
    ShownCountIsSum(keys);
  }

  /**
   * The shown counts add up to at most the number of assignments, and to
   * exactly that number when every status is one of the four shown.
   */
  lemma ShownSumBounded(statuses: seq<JsStr>)
    ensures RowSum(StatusRows(Tally(statuses))) <= |statuses|
    ensures RowSum(StatusRows(Tally(statuses))) == |statuses| <==>
      forall i :: 0 <= i < |statuses| ==> PropertyKey(statuses[i]) in ShownStatuses
  {
    RowSumIsShownCount(statuses);
    ShownCountFull(Keys(statuses));
    AllShownKeys(statuses);
  }
}
