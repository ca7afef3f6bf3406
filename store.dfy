/** The deal store: the list of deal records, appended to when a deal is
    saved and rewritten in place when a deal's status changes. The file the
    program keeps the list in is not modelled; the sequence is the store. */
module DealStore {
  import opened Records
  import RiskScoring
  import DealTerms

  /** Index of the first deal carrying `id`, if any. */
  function FirstIndexOf(deals: seq<Deal>, id: string): (r: Option<nat>)
    ensures r.Some? ==> r.value < |deals| && deals[r.value].Id() == id
    ensures r.Some? ==> forall j :: 0 <= j < r.value ==> deals[j].Id() != id
    ensures r.None? <==> forall j :: 0 <= j < |deals| ==> deals[j].Id() != id
  {
    if |deals| == 0 then None
    else if deals[0].Id() == id then Some(0)
    else match FirstIndexOf(deals[1..], id)
      case None => None
      case Some(k) => Some(k + 1)
  }

  /** What a lookup by id finds: the first deal with that id. */
  function FindDeal(deals: seq<Deal>, id: string): (r: Option<Deal>)
    ensures r.Some? ==> r.value in deals && r.value.Id() == id
    ensures r.None? <==> forall d :: d in deals ==> d.Id() != id
  {
    match FirstIndexOf(deals, id)
    case None => None
    case Some(k) => Some(deals[k])
  }

  /** The record a save builds: business data, then terms over it, then the
      proposal and the creation stamps. No approval or rejection stamp yet. */
  function MergeRecord(b: Business, t: Terms, proposal: string, now: Timestamp): (d: Deal)
    ensures d.Id() == b.id && d.Status() == b.status
    ensures d.SpaceSize() == t.spaceSize && d.RiskScore() == t.riskScore
    ensures d.createdAt == now && d.updatedAt == now
    ensures d.approvedAt.None? && d.rejectedAt.None?
  {
    Deal(b, t, proposal, now, now, None, None)
  }

  /** One deal after a status change at time `now`. */
  function WithStatus(d: Deal, status: string, now: Timestamp): (r: Deal)
    ensures r.Status() == status && r.updatedAt == now
    ensures r.business == d.business.(status := status)
    ensures r.Id() == d.Id() && r.terms == d.terms && r.proposal == d.proposal && r.createdAt == d.createdAt
    ensures r.approvedAt == (if status == "approved" then Some(now) else d.approvedAt)
    ensures r.rejectedAt == (if status == "rejected" then Some(now) else d.rejectedAt)
  {
    var stamped := d.(business := d.business.(status := status), updatedAt := now);
    if status == "approved" then stamped.(approvedAt := Some(now))
    else if status == "rejected" then stamped.(rejectedAt := Some(now))
    else stamped
  }

  /** The whole list after a status change: only the first deal with the id
      changes; an unknown id changes nothing. */
  function UpdatedStatus(deals: seq<Deal>, id: string, status: string, now: Timestamp): (r: seq<Deal>)
    ensures |r| == |deals|
  {
    match FirstIndexOf(deals, id)
    case None => deals
    case Some(k) => deals[k := WithStatus(deals[k], status, now)]
  }

  class Store {
    var deals: seq<Deal>

    constructor ()
      ensures deals == []
    {
      deals := [];
    }

    /** Appends the merged record and returns it. */
    method SaveDeal(b: Business, t: Terms, proposal: string, now: Timestamp) returns (record: Deal)
      modifies this
      ensures record == MergeRecord(b, t, proposal, now)
      ensures deals == old(deals) + [record]
    {
      record := MergeRecord(b, t, proposal, now);
      deals := deals + [record];
    }

    /** Scores an application, derives its terms and saves the deal, as the
        application form does on submission. The proposal text is given. */
    method SubmitApplication(b: Business, proposal: string, now: Timestamp) returns (record: Deal)
      modifies this
      ensures record == MergeRecord(b, DealTerms.GenerateDealTerms(b, RiskScoring.RiskScore(b)), proposal, now)
      ensures RiskScoring.MinScore <= record.RiskScore() <= RiskScoring.MaxScore
      ensures deals == old(deals) + [record]
    {
      var score := RiskScoring.RiskScore(b);
      var terms := DealTerms.GenerateDealTerms(b, score);
      record := SaveDeal(b, terms, proposal, now);
    }

    /** Linear search for the first deal with the id. */
    method GetDealById(id: string) returns (found: Option<Deal>)
      ensures found == FindDeal(deals, id)
      ensures found.Some? ==> found.value in deals && found.value.Id() == id
      ensures found.None? <==> forall d :: d in deals ==> d.Id() != id
    {
      for i := 0 to |deals|
        invariant forall j :: 0 <= j < i ==> deals[j].Id() != id
      {
        if deals[i].Id() == id {
          return Some(deals[i]);
        }
      }
      return None;
    }

    /** Sets the status of the first deal with the id, stamps the update and,
        for an approval or a rejection, that event; then stops. */
    method UpdateDealStatus(id: string, newStatus: string, now: Timestamp)
      modifies this
      ensures deals == UpdatedStatus(old(deals), id, newStatus, now)
    {
      var i := 0;
      while i < |deals|
        invariant 0 <= i <= |deals|
        invariant deals == old(deals)
        invariant forall j :: 0 <= j < i ==> deals[j].Id() != id
      {
        if deals[i].Id() == id {
          var deal := deals[i];
          deal := deal.(business := deal.business.(status := newStatus));
          deal := deal.(updatedAt := now);
          if newStatus == "approved" {
            deal := deal.(approvedAt := Some(now));
          } else if newStatus == "rejected" {
            deal := deal.(rejectedAt := Some(now));
          }
          deals := deals[i := deal];
          break;
        }
        i := i + 1;
      }
    }
  }

  /** After a status change the deal with the id (the first one) carries the
      new status and update time and keeps the rest of its business data and
      its terms; every other position is untouched. */
  lemma UpdateChangesOnlyFirstMatch(deals: seq<Deal>, id: string, status: string, now: Timestamp, k: nat)
    requires FirstIndexOf(deals, id) == Some(k)
    ensures var r := UpdatedStatus(deals, id, status, now);
      && r[k].Status() == status && r[k].updatedAt == now && r[k].Id() == id
      && r[k].business == deals[k].business.(status := status)
      && r[k].terms == deals[k].terms
      && forall j :: 0 <= j < |deals| && j != k ==> r[j] == deals[j]
  {
  }

  /** A status change for an id no deal carries leaves the list as it was. */
  lemma UpdateUnknownIdIsNoOp(deals: seq<Deal>, id: string, status: string, now: Timestamp)
    requires forall d :: d in deals ==> d.Id() != id
    ensures UpdatedStatus(deals, id, status, now) == deals
  {
    assert forall j :: 0 <= j < |deals| ==> deals[j] in deals;
  }

  /** Approval and rejection stamps: each is set only by its own status and
      is never cleared by a later change. */
  lemma UpdateStamps(deals: seq<Deal>, id: string, status: string, now: Timestamp, j: nat)
    requires j < |deals|
    ensures var r := UpdatedStatus(deals, id, status, now);
      && (deals[j].approvedAt.Some? ==> r[j].approvedAt.Some?)
      && (deals[j].rejectedAt.Some? ==> r[j].rejectedAt.Some?)
      && (r[j].approvedAt != deals[j].approvedAt ==> status == "approved" && r[j].approvedAt == Some(now))
      && (r[j].rejectedAt != deals[j].rejectedAt ==> status == "rejected" && r[j].rejectedAt == Some(now))
  {
  }

  /** The first index of an id in a list with one record appended. */
  lemma {:induction false} FirstIndexAfterAppend(deals: seq<Deal>, d: Deal, id: string)
    ensures FirstIndexOf(deals + [d], id)
         == if FirstIndexOf(deals, id).Some? then FirstIndexOf(deals, id)
            else if d.Id() == id then Some(|deals|) else None
  {
    if |deals| > 0 && deals[0].Id() != id {
      assert (deals + [d])[1..] == deals[1..] + [d];
      FirstIndexAfterAppend(deals[1..], d, id);
    }
  }

  /** After saving, a lookup of the new id finds the new record when the id
      was not yet present, and otherwise still finds the earlier one. */
  lemma SaveThenFind(deals: seq<Deal>, record: Deal)
    ensures FindDeal(deals + [record], record.Id())
         == if FindDeal(deals, record.Id()).Some? then FindDeal(deals, record.Id()) else Some(record)
  {
    FirstIndexAfterAppend(deals, record, record.Id());
  }

  /** A fresh pending deal that is then approved is approved, carries the
      approval time and has no rejection stamp. */
  lemma ApproveFreshDeal(deals: seq<Deal>, b: Business, t: Terms, proposal: string, created: Timestamp, later: Timestamp)
    requires b.status == "pending"
    requires forall d :: d in deals ==> d.Id() != b.id
    ensures var r := UpdatedStatus(deals + [MergeRecord(b, t, proposal, created)], b.id, "approved", later);
      && r[|deals|].Status() == "approved"
      && r[|deals|].approvedAt == Some(later)
      && r[|deals|].rejectedAt.None?
      && r[..|deals|] == deals
  {
    var record := MergeRecord(b, t, proposal, created);
    FirstIndexAfterAppend(deals, record, b.id);
    assert FirstIndexOf(deals + [record], b.id) == Some(|deals|);
  }
}
