/** The paged update of `chat_steps.usage` against the one statement it stands for. */
module KeysetMigration {
  import opened Base

  /** A row id: a uuid read as a number. The zero uuid is where the walk starts. */
  type Id = nat

  datatype Usage = SqlNull | JsonNull | Counters(json: string)

  type Column = map<Id, Usage>

  /** The rows of the window `(low, high]` whose value is the JSON `null` become SQL NULL. */
  function FixedBetween(usage: Column, low: Id, high: Id): Column {
    map id | id in usage :: if low < id <= high && usage[id] == JsonNull then SqlNull else usage[id]
  }

  /** One UPDATE over every row with an id above `low`. */
  function OneShot(usage: Column, low: Id): Column {
    map id | id in usage :: if low < id && usage[id] == JsonNull then SqlNull else usage[id]
  }

  ghost predicate Increasing(ids: seq<Id>) {
    forall i, j :: 0 <= i < j < |ids| ==> ids[i] < ids[j]
  }

  /** How many pages of `batch` rows cover `n` rows. */
  function PagesFor(n: nat, batch: nat): nat
    requires batch > 0
  {
    if n <= batch then (if n == 0 then 0 else 1) else 1 + PagesFor(n - batch, batch)
  }

  /** That is `n / batch`, rounded up. */
  lemma {:induction false} PagesForIsCeiling(n: nat, batch: nat)
    requires batch > 0
    ensures PagesFor(n, batch) * batch >= n
    ensures n > 0 ==> (PagesFor(n, batch) - 1) * batch < n
    ensures n == 0 ==> PagesFor(n, batch) == 0
  {
    if n > batch {
      PagesForIsCeiling(n - batch, batch);
      var k := PagesFor(n - batch, batch);
      assert (k + 1) * batch == k * batch + batch;
    }
  }

  class ChatSteps {
    /** The primary key index, and the column. */
    const ids: seq<Id>
    var usage: Column

    ghost predicate Valid()
      reads this
    {
      Increasing(ids) && usage.Keys == set i | 0 <= i < |ids| :: ids[i]
    }

    constructor (ids: seq<Id>, usage: Column)
      requires Increasing(ids) && usage.Keys == set i | 0 <= i < |ids| :: ids[i]
      ensures Valid() && this.ids == ids && this.usage == usage
    {
      this.ids, this.usage := ids, usage;
    }

    /** The last of the `batch` lowest ids above the cursor, if there is any. */
    method PageEnd(cursor: Id, batch: nat) returns (boundary: Option<Id>)
      requires Valid() && batch > 0
      ensures var k := Covered(ids, cursor);
              boundary == if k == |ids| then None else Some(ids[(if |ids| - k <= batch then |ids| else k + batch) - 1])
    {
      var i := 0;
      while i < |ids| && ids[i] <= cursor
        invariant 0 <= i <= |ids| && forall j :: 0 <= j < i ==> ids[j] <= cursor
      {
        i := i + 1;
      }
      CoveredIs(ids, cursor, i);
      var taken := 0;
      boundary := None;
      while i < |ids| && taken < batch
        invariant taken <= batch && i == Covered(ids, cursor) + taken <= |ids|
        invariant boundary == if taken == 0 then None else Some(ids[i - 1])
      {
        boundary := Some(ids[i]);
        i, taken := i + 1, taken + 1;
      }
    }

    method FixPage(cursor: Id, boundary: Id)
      modifies this`usage
      ensures usage == FixedBetween(old(usage), cursor, boundary)
      ensures usage.Keys == old(usage).Keys
      ensures forall id :: id in usage && cursor < id <= boundary ==> usage[id] != JsonNull
      ensures forall id :: id in usage && usage[id] != old(usage)[id] ==>
                cursor < id <= boundary && old(usage)[id] == JsonNull && usage[id] == SqlNull
    {
      usage := FixedBetween(usage, cursor, boundary);
    }

    /** The walk refines the one-shot update on every row above the zero uuid, changes nothing else, and
        takes one page per `batch` such rows, the last one possibly partial. */
    method Upgrade(batch: nat) returns (pages: nat)
      requires Valid() && batch > 0
      modifies this`usage
      ensures Valid() && usage == OneShot(old(usage), 0)
      ensures pages == PagesFor(|ids| - Covered(ids, 0), batch)
    {
      hide FixedBetween, OneShot, Covered;
      var cursor := 0;
      pages := 0;
      OneShotStart(usage);
      while true
        invariant Valid() && usage == FixedBetween(old(usage), 0, cursor)
        invariant pages + PagesFor(|ids| - Covered(ids, cursor), batch) == PagesFor(|ids| - Covered(ids, 0), batch)
        decreases |ids| - Covered(ids, cursor)
      {
        var boundary := PageEnd(cursor, batch);
        if boundary.None? {
          break;
        }
        PageCovers(ids, cursor, batch);
        WindowsJoin(old(usage), 0, cursor, boundary.value);
        FixPage(cursor, boundary.value);
        SameRows(old(usage), 0, boundary.value);
        cursor := boundary.value;
        pages := pages + 1;
      }
      Finished(ids, old(usage), cursor);
    }
  }

  /** After a page the cursor has passed exactly that page's rows. */
  lemma PageCovers(ids: seq<Id>, cursor: Id, batch: nat)
    requires Increasing(ids) && batch > 0 && Covered(ids, cursor) < |ids|
    ensures var k := Covered(ids, cursor);
            var end := if |ids| - k <= batch then |ids| else k + batch;
            && ids[end - 1] > cursor && Covered(ids, ids[end - 1]) == end
            && PagesFor(|ids| - k, batch) == 1 + PagesFor(|ids| - end, batch)
  {
    var k := Covered(ids, cursor);
    var end := if |ids| - k <= batch then |ids| else k + batch;
    CoveredIs(ids, ids[end - 1], end);
    assert ids[k] <= ids[end - 1];
  }

  lemma SameRows(usage: Column, low: Id, high: Id)
    ensures FixedBetween(usage, low, high).Keys == usage.Keys
  {
  }

  /** Once no id is left above the cursor, the windows have covered the table. */
  lemma Finished(ids: seq<Id>, usage: Column, cursor: Id)
    requires usage.Keys == set i | 0 <= i < |ids| :: ids[i]
    requires Covered(ids, cursor) == |ids|
    ensures FixedBetween(usage, 0, cursor) == OneShot(usage, 0)
    ensures OneShot(usage, 0).Keys == usage.Keys
  {
    forall id | id in usage ensures id <= cursor {
      var i :| 0 <= i < |ids| && ids[i] == id;
    }
  }

  /** How many ids the cursor has passed. */
  function Covered(ids: seq<Id>, cursor: Id): (n: nat)
    ensures n <= |ids|
    ensures n < |ids| ==> ids[n] > cursor
    ensures forall i :: 0 <= i < n ==> ids[i] <= cursor
  {
    if ids == [] || ids[0] > cursor then 0 else 1 + Covered(ids[1..], cursor)
  }

  lemma CoveredIs(ids: seq<Id>, cursor: Id, n: nat)
    requires Increasing(ids) && n <= |ids| && (n < |ids| ==> ids[n] > cursor)
    requires forall i :: 0 <= i < n ==> ids[i] <= cursor
    ensures Covered(ids, cursor) == n
  {
  }

  lemma OneShotStart(usage: Column)
    ensures FixedBetween(usage, 0, 0) == usage
  {
  }

  /** The start value matters only to a row that never exists: the walk equals the update of the whole
      table iff the zero uuid does not carry a JSON `null`. */
  lemma WholeTableIff(usage: Column)
    ensures OneShot(usage, 0) == (map id | id in usage :: if usage[id] == JsonNull then SqlNull else usage[id])
            <==> !(0 in usage && usage[0] == JsonNull)
  {
    var whole := map id | id in usage :: if usage[id] == JsonNull then SqlNull else usage[id];
    if 0 in usage && usage[0] == JsonNull {
      assert OneShot(usage, 0)[0] == JsonNull && whole[0] == SqlNull;
    }
  }

  /** Running it again finds nothing to do. */
  lemma SecondRunIsFree(usage: Column)
    ensures OneShot(OneShot(usage, 0), 0) == OneShot(usage, 0)
    ensures forall id :: id in usage && id > 0 ==> OneShot(usage, 0)[id] != JsonNull
    ensures forall id :: id in usage && usage[id] != JsonNull ==> OneShot(usage, 0)[id] == usage[id]
  {
  }

  /** Two adjoining windows are one. */
  lemma WindowsJoin(usage: Column, low: Id, middle: Id, high: Id)
    requires low <= middle <= high
    ensures FixedBetween(FixedBetween(usage, low, middle), middle, high) == FixedBetween(usage, low, high)
  {
  }
}
