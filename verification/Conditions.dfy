/** The condition lists of Kubernetes objects: lists updated in place that have to behave as maps
    keyed by condition type. Both reconcilers take their decisions from such lists. */
module Conditions {
  datatype Status = Unknown | True | False

  /** Zero is the zero time, which means "not given". */
  type Time = nat

  datatype Condition<T> = Condition(kind: T, status: Status, reason: string, message: string, lastTransition: Time)

  ghost predicate Unique<T>(cs: seq<Condition<T>>) {
    forall i, j :: 0 <= i < j < |cs| ==> cs[i].kind != cs[j].kind
  }

  /** The position of the first condition of a kind, or the length of the list. */
  function IndexOf<T(==)>(cs: seq<Condition<T>>, kind: T): (i: nat)
    ensures i <= |cs|
    ensures i < |cs| ==> cs[i].kind == kind
    ensures forall j :: 0 <= j < i ==> cs[j].kind != kind
  {
    if cs == [] then 0 else if cs[0].kind == kind then 0 else 1 + IndexOf(cs[1..], kind)
  }

  predicate Has<T(==)>(cs: seq<Condition<T>>, kind: T) {
    IndexOf(cs, kind) < |cs|
  }

  /** What a reader that looks conditions up by kind can see of a list. */
  ghost function AsMap<T>(cs: seq<Condition<T>>): map<T, Status> {
    map c | c in cs :: c.kind := cs[IndexOf(cs, c.kind)].status
  }

  /** The list after one call of setStatusCondition at time `now`. */
  function Upsert<T(==)>(cs: seq<Condition<T>>, c: Condition<T>, now: Time): seq<Condition<T>> {
    var time := if c.lastTransition == 0 then now else c.lastTransition;
    var i := IndexOf(cs, c.kind);
    if i == |cs| then
      cs + [c.(lastTransition := time)]
    else
      cs[i := c.(lastTransition := if cs[i].status == c.status then cs[i].lastTransition else time)]
  }

  class ConditionList<T(==)> {
    var items: seq<Condition<T>>

    constructor (items: seq<Condition<T>>)
      ensures this.items == items
    {
      this.items := items;
    }

    method FindStatusCondition(kind: T) returns (i: nat)
      ensures i == IndexOf(items, kind)
    {
      i := 0;
      while i < |items|
        invariant i <= |items|
        invariant forall j :: 0 <= j < i ==> items[j].kind != kind
      {
        if items[i].kind == kind {
          return;
        }
        i := i + 1;
      }
    }

    method SetStatusCondition(c: Condition<T>, now: Time)
      modifies this
      ensures items == Upsert(old(items), c, now)
    {
      var i := FindStatusCondition(c.kind);
      if i == |items| {
        var added := c;
        if added.lastTransition == 0 {
          added := added.(lastTransition := now);
        }
        items := items + [added];
        return;
      }
      if items[i].status != c.status {
        items := items[i := items[i].(status := c.status)];
        if c.lastTransition != 0 {
          items := items[i := items[i].(lastTransition := c.lastTransition)];
        } else {
          items := items[i := items[i].(lastTransition := now)];
        }
      }
      items := items[i := items[i].(reason := c.reason)];
      items := items[i := items[i].(message := c.message)];
    }
  }

  /** An update never disturbs a neighbour: the list keeps its order, its uniqueness and every other
      entry, and grows by at most one, at the end. */
  lemma UpsertKeepsTheRest<T>(cs: seq<Condition<T>>, c: Condition<T>, now: Time)
    ensures var r := Upsert(cs, c, now);
      && |cs| <= |r| <= |cs| + 1
      && (|r| == |cs| <==> Has(cs, c.kind))
      && (forall j :: 0 <= j < |cs| && (cs[j].kind != c.kind || IndexOf(cs, c.kind) < j) ==> r[j] == cs[j])
      && (forall j :: 0 <= j < |cs| ==> r[j].kind == cs[j].kind)
      && (Unique(cs) ==> Unique(r))
  {
    var r := Upsert(cs, c, now);
    if Unique(cs) {
      forall i, j | 0 <= i < j < |r| ensures r[i].kind != r[j].kind {
        assert r[i].kind == cs[i].kind;
      }
    }
  }

  /** The entry that was set holds the new status, reason and message. Its transition time moves when
      the status changes and only then. */
  lemma UpsertStores<T>(cs: seq<Condition<T>>, c: Condition<T>, now: Time)
    ensures var r := Upsert(cs, c, now);
      var i := IndexOf(r, c.kind);
      && i == IndexOf(cs, c.kind) < |r|
      && r[i].status == c.status && r[i].reason == c.reason && r[i].message == c.message
      && (i < |cs| && cs[i].status == c.status ==> r[i].lastTransition == cs[i].lastTransition)
      && (!(i < |cs| && cs[i].status == c.status) ==>
            r[i].lastTransition == if c.lastTransition == 0 then now else c.lastTransition)
  {
    var r := Upsert(cs, c, now);
    var i := IndexOf(cs, c.kind);
    UpsertKeepsTheRest(cs, c, now);
    assert r[i].kind == c.kind;
    assert forall j :: 0 <= j < i ==> r[j].kind == cs[j].kind != c.kind;
  }

  /** Kinds other than the one set are found where they were, or are as absent as they were. */
  lemma UpsertElsewhere<T>(cs: seq<Condition<T>>, c: Condition<T>, now: Time, kind: T)
    requires kind != c.kind
    ensures var r := Upsert(cs, c, now);
      && (Has(r, kind) <==> Has(cs, kind))
      && (Has(cs, kind) ==> IndexOf(r, kind) == IndexOf(cs, kind) && r[IndexOf(r, kind)] == cs[IndexOf(cs, kind)])
  {
    var r := Upsert(cs, c, now);
    UpsertKeepsTheRest(cs, c, now);
    var i, j := IndexOf(cs, kind), IndexOf(r, kind);
    if i < |cs| {
      assert r[i].kind == kind;
    }
    if j < |cs| {
      assert cs[j].kind == kind;
    }
  }

  lemma MapHas<T>(cs: seq<Condition<T>>, kind: T)
    ensures kind in AsMap(cs) <==> Has(cs, kind)
    ensures Has(cs, kind) ==> AsMap(cs)[kind] == cs[IndexOf(cs, kind)].status
  {
    if Has(cs, kind) {
      assert cs[IndexOf(cs, kind)] in cs;
    }
  }

  lemma LookupAfterUpsert<T>(cs: seq<Condition<T>>, c: Condition<T>, now: Time, kind: T)
    ensures kind in AsMap(Upsert(cs, c, now)) <==> kind in AsMap(cs) || kind == c.kind
    ensures kind in AsMap(Upsert(cs, c, now)) ==>
              AsMap(Upsert(cs, c, now))[kind] == if kind == c.kind then c.status else AsMap(cs)[kind]
  {
    var r := Upsert(cs, c, now);
    MapHas(r, kind);
    MapHas(cs, kind);
    if kind == c.kind {
      UpsertStores(cs, c, now);
    } else {
      UpsertElsewhere(cs, c, now, kind);
    }
  }

  /** Readers by kind see a map update. */
  lemma UpsertIsMapUpdate<T>(cs: seq<Condition<T>>, c: Condition<T>, now: Time)
    ensures AsMap(Upsert(cs, c, now)) == AsMap(cs)[c.kind := c.status]
  {
    forall kind {
      LookupAfterUpsert(cs, c, now, kind);
    }
  }

  /** Setting the same condition again, at any later time, changes nothing. */
  lemma UpsertTwice<T>(cs: seq<Condition<T>>, c: Condition<T>, now: Time, later: Time)
    ensures Upsert(Upsert(cs, c, now), c, later) == Upsert(cs, c, now)
  {
    UpsertStores(cs, c, now);
  }

  // ----- approval state of a certificate signing request

  datatype CsrConditionType = Approved | Denied | Failed | Other(name: string)

  datatype Flags = Flags(approved: bool, denied: bool, failed: bool) {
    predicate Pending() { !approved && !denied && !failed }

    predicate Decided() { !Pending() }

    function With(kind: CsrConditionType): Flags {
      match kind
      case Approved => this.(approved := true)
      case Denied => this.(denied := true)
      case Failed => this.(failed := true)
      case Other(_) => this
    }
  }

  const PENDING := Flags(false, false, false)

  /** The decision both reconcilers read off the list; only the types matter, not the statuses. */
  function ApprovalOf(cs: seq<Condition<CsrConditionType>>): Flags {
    Flags(Has(cs, Approved), Has(cs, Denied), Has(cs, Failed))
  }

  method GetCertApprovalCondition(conditions: seq<Condition<CsrConditionType>>)
    returns (approved: bool, denied: bool, failed: bool)
    ensures approved <==> exists c :: c in conditions && c.kind == Approved
    ensures denied <==> exists c :: c in conditions && c.kind == Denied
    ensures failed <==> exists c :: c in conditions && c.kind == Failed
    ensures Flags(approved, denied, failed) == ApprovalOf(conditions)
  {
    approved, denied, failed := false, false, false;
    for i := 0 to |conditions|
      invariant approved <==> exists j :: 0 <= j < i && conditions[j].kind == Approved
      invariant denied <==> exists j :: 0 <= j < i && conditions[j].kind == Denied
      invariant failed <==> exists j :: 0 <= j < i && conditions[j].kind == Failed
    {
      var c := conditions[i];
      if c.kind == Approved {
        approved := true;
      }
      if c.kind == Denied {
        denied := true;
      }
      if c.kind == Failed {
        failed := true;
      }
    }
    HasIffMember(conditions, Approved);
    HasIffMember(conditions, Denied);
    HasIffMember(conditions, Failed);
  }

  lemma HasIffMember<T>(cs: seq<Condition<T>>, kind: T)
    ensures Has(cs, kind) <==> exists i :: 0 <= i < |cs| && cs[i].kind == kind
    ensures Has(cs, kind) <==> exists c :: c in cs && c.kind == kind
  {
    if Has(cs, kind) {
      assert cs[IndexOf(cs, kind)] in cs;
    }
  }

  /** Setting a condition raises exactly the bit of its type, so bits are never lost. */
  lemma UpsertSetsOneFlag(cs: seq<Condition<CsrConditionType>>, c: Condition<CsrConditionType>, now: Time)
    ensures ApprovalOf(Upsert(cs, c, now)) == ApprovalOf(cs).With(c.kind)
  {
    UpsertIsMapUpdate(cs, c, now);
    forall k ensures Has(Upsert(cs, c, now), k) <==> Has(cs, k) || k == c.kind {
      MapHas(Upsert(cs, c, now), k);
      MapHas(cs, k);
    }
  }
}
