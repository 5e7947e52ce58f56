/** The downstream's ledger of executions, the oracle of the guarantee, and the
    probe that reads it. */
module Ledger {

  datatype Entry = Entry(sequence: nat, correlation: string, resource: string)

  /** The entries of one correlation identifier, by scanning the whole list. */
  function Scan(records: seq<Entry>, id: string): seq<Entry> {
    if records == [] then []
    else
      var last := records[|records| - 1];
      Scan(records[..|records| - 1], id) + (if last.correlation == id then [last] else [])
  }

  lemma ScanOfAppend(records: seq<Entry>, entry: Entry, id: string)
    ensures Scan(records + [entry], id) == Scan(records, id) + (if entry.correlation == id then [entry] else [])
  {
    assert (records + [entry])[..|records|] == records;
  }

  /** A scan finds the entries of the identifier, all of them and only them. */
  lemma {:induction false} ScanFinds(records: seq<Entry>, id: string)
    ensures forall e :: e in Scan(records, id) <==> e in records && e.correlation == id
  {
    if records != [] {
      var front := records[..|records| - 1];
      ScanFinds(front, id);
      assert records == front + [records[|records| - 1]];
    }
  }

  lemma {:induction false} ScanIsEmptyIff(records: seq<Entry>, id: string)
    ensures Scan(records, id) == [] <==> forall e | e in records :: e.correlation != id
  {
    if records != [] {
      var front := records[..|records| - 1];
      ScanIsEmptyIff(front, id);
      assert records == front + [records[|records| - 1]];
    }
  }

  /** The last entry that a scan finds is the latest one. */
  lemma {:induction false} ScanEndsLast(records: seq<Entry>, id: string)
    requires forall i | 0 <= i < |records| :: records[i].sequence == i + 1
    requires Scan(records, id) != []
    ensures var found := Scan(records, id);
            forall e | e in records && e.correlation == id :: e.sequence <= found[|found| - 1].sequence
  {
    var front, last := records[..|records| - 1], records[|records| - 1];
    assert records == front + [last];
    if last.correlation != id {
      ScanEndsLast(front, id);
    } else {
      forall e | e in records ensures e.sequence <= last.sequence {
        var i :| 0 <= i < |records| && records[i] == e;
      }
    }
  }

  class Book {
    var records: seq<Entry>
    var byId: map<string, seq<Entry>>

    /** The index holds what a scan would find, and the entries are numbered. */
    ghost predicate Valid()
      reads this
    {
      && (forall id :: Scan(records, id) == if id in byId then byId[id] else [])
      && (forall i | 0 <= i < |records| :: records[i].sequence == i + 1)
    }

    constructor ()
      ensures Valid() && records == []
    {
      records, byId := [], map[];
    }

    /** Appends one execution, unless the file refuses it. */
    method Record(correlation: string, resource: string, writable: bool) returns (ok: bool, entry: Entry)
      requires Valid()
      modifies this
      ensures Valid() && ok == writable
      ensures entry == Entry(|old(records)| + 1, correlation, resource)
      ensures records == if ok then old(records) + [entry] else old(records)
    {
      entry := Entry(|records| + 1, correlation, resource);
      if !writable {
        return false, entry;
      }
      forall id ensures Scan(records + [entry], id) == Scan(records, id) + (if correlation == id then [entry] else []) {
        ScanOfAppend(records, entry, id);
      }
      records := records + [entry];
      var before := if correlation in byId then byId[correlation] else [];
      byId := byId[correlation := before + [entry]];
      return true, entry;
    }

    /** The indexed lookup finds what a scan of the list would; the empty
        identifier asks for everything. */
    method ByCorrelation(id: string) returns (found: seq<Entry>)
      requires Valid()
      ensures found == if id == "" then records else Scan(records, id)
    {
      if id == "" {
        return records;
      }
      return if id in byId then byId[id] else [];
    }

    /** What the probe of a correlation identifier concludes from this ledger. */
    method Probe(id: string, answers: bool) returns (outcome: ProbeOutcome)
      requires Valid() && id != ""
      ensures outcome.Unreachable? <==> !answers
      ensures answers ==> (outcome.NotExecuted? <==> forall e | e in records :: e.correlation != id)
      ensures outcome.Executed? ==>
              && outcome.count == |Scan(records, id)|
              && outcome.last in records && outcome.last.correlation == id
              && forall e | e in records && e.correlation == id :: e.sequence <= outcome.last.sequence
    {
      if !answers {
        return Unreachable;
      }
      var found := ByCorrelation(id);
      ScanFinds(records, id);
      if |found| == 0 {
        return NotExecuted;
      }
      assert found[|found| - 1] in found;
      ScanEndsLast(records, id);
      return Executed(|found|, found[|found| - 1]);
    }
  }

  datatype ProbeOutcome = Unreachable | NotExecuted | Executed(count: nat, last: Entry)
}
