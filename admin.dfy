// The admin dashboard's view of the calls (main.py): which calls an admin
// may see (get_active_calls, get_conversation), the order they are listed
// in, and the mobile-number validation of create_worker.

module AdminView {
  import opened Optional
  import opened PyText

  /** A call as stored in the realtime database; the fields the view uses
      may be missing. */
  datatype StoredCall = StoredCall(workerId: Option<string>, adminId: Option<string>, urgency: Option<string>)

  /** The ActiveCall row sent to the dashboard, with the defaults filled in. */
  datatype ActiveCall = ActiveCall(callId: string, workerId: string, urgency: string, adminId: Option<string>)

  /** An admin sees the calls taken over by them, and the calls nobody has
      taken over whose worker is one of theirs. */
  predicate HasAccess(c: StoredCall, admin: string, workers: seq<string>) {
    c.adminId == Some(admin) || (!Truthy(c.adminId) && c.workerId.Some? && c.workerId.value in workers)
  }

  function View(callId: string, c: StoredCall): ActiveCall {
    ActiveCall(callId,
               if c.workerId.Some? then c.workerId.value else "",
               if c.urgency.Some? then c.urgency.value else "NORMAL",
               c.adminId)
  }

  /** The rows of the calls the admin may see, in the database's order. */
  function Visible(items: seq<(string, StoredCall)>, admin: string, workers: seq<string>): seq<ActiveCall> {
    if items == [] then []
    else
      var last := items[|items| - 1];
      Visible(items[..|items| - 1], admin, workers)
      + (if HasAccess(last.1, admin, workers) then [View(last.0, last.1)] else [])
  }

  /** The sort key: CRITICAL, URGENT, NORMAL, then anything else. */
  function Priority(urgency: string): (p: nat)
    ensures p <= 3
  {
    if urgency == "CRITICAL" then 0
    else if urgency == "URGENT" then 1
    else if urgency == "NORMAL" then 2
    else 3
  }

  /** The rows of priority p, in their original order. */
  function Bucket(s: seq<ActiveCall>, p: nat): (r: seq<ActiveCall>)
    ensures forall i :: 0 <= i < |r| ==> Priority(r[i].urgency) == p
  {
    if s == [] then []
    else (if Priority(s[0].urgency) == p then [s[0]] else []) + Bucket(s[1..], p)
  }

  /** Python's stable sort on the priority key. */
  function SortByUrgency(s: seq<ActiveCall>): seq<ActiveCall> {
    Bucket(s, 0) + Bucket(s, 1) + Bucket(s, 2) + Bucket(s, 3)
  }

  predicate SortedByUrgency(s: seq<ActiveCall>) {
    forall i, j :: 0 <= i < j < |s| ==> Priority(s[i].urgency) <= Priority(s[j].urgency)
  }

  // -----------------------------------------------------------------------
  // The visible calls
  // -----------------------------------------------------------------------

  /** A row is listed exactly when it is the view of a call the admin may
      see. */
  lemma {:induction false} VisibleExactly(items: seq<(string, StoredCall)>, admin: string, workers: seq<string>,
                                          x: ActiveCall)
    ensures x in Visible(items, admin, workers)
            <==> exists i :: 0 <= i < |items| && HasAccess(items[i].1, admin, workers) && x == View(items[i].0, items[i].1)
  {
    if items != [] {
      var init := items[..|items| - 1];
      VisibleExactly(init, admin, workers, x);
      if x in Visible(items, admin, workers) && x !in Visible(init, admin, workers) {
        assert HasAccess(items[|items| - 1].1, admin, workers) && x == View(items[|items| - 1].0, items[|items| - 1].1);
      }
      if exists i :: 0 <= i < |items| && HasAccess(items[i].1, admin, workers) && x == View(items[i].0, items[i].1) {
        var i :| 0 <= i < |items| && HasAccess(items[i].1, admin, workers) && x == View(items[i].0, items[i].1);
        if i < |items| - 1 {
          assert init[i] == items[i];
        }
      }
    }
  }

  /** A call taken over by another admin is hidden, even from the admin
      whose worker placed it. */
  lemma TakenOverCallHidden(c: StoredCall, admin: string, other: string, workers: seq<string>)
    requires c.adminId == Some(other) && other != "" && other != admin
    ensures !HasAccess(c, admin, workers)
  {
  }

  // -----------------------------------------------------------------------
  // The order of the listing
  // -----------------------------------------------------------------------

  lemma {:induction false} BucketAppend(a: seq<ActiveCall>, b: seq<ActiveCall>, p: nat)
    ensures Bucket(a + b, p) == Bucket(a, p) + Bucket(b, p)
  {
    if a == [] {
      assert a + b == b;
    } else {
      var head := if Priority(a[0].urgency) == p then [a[0]] else [];
      BucketAppend(a[1..], b, p);
      assert Bucket(a + b, p) == head + Bucket(a[1..] + b, p) by {
        assert (a + b)[0] == a[0] && (a + b)[1..] == a[1..] + b;
      }
      assert Bucket(a, p) == head + Bucket(a[1..], p);
      Associative(head, Bucket(a[1..], p), Bucket(b, p));
    }
  }

  lemma Associative(x: seq<ActiveCall>, y: seq<ActiveCall>, z: seq<ActiveCall>)
    ensures x + (y + z) == (x + y) + z
  {
  }

  lemma BucketCons(x: ActiveCall, rest: seq<ActiveCall>, p: nat)
    ensures Bucket([x] + rest, p) == (if Priority(x.urgency) == p then [x] else []) + Bucket(rest, p)
  {
    assert ([x] + rest)[0] == x && ([x] + rest)[1..] == rest;
  }

  lemma {:induction false} BucketOfBucket(s: seq<ActiveCall>, p: nat, q: nat)
    ensures Bucket(Bucket(s, q), p) == if p == q then Bucket(s, q) else []
  {
    if s != [] {
      BucketOfBucket(s[1..], p, q);
      var head := if Priority(s[0].urgency) == q then [s[0]] else [];
      BucketAppend(head, Bucket(s[1..], q), p);
      if Priority(s[0].urgency) == q {
        assert Bucket(head, p) == (if p == q then [s[0]] else []) + Bucket([], p);
      } else {
        assert Bucket(head, p) == [];
      }
    }
  }

  lemma {:induction false} BucketEmpty(s: seq<ActiveCall>, p: nat)
    requires forall i :: 0 <= i < |s| ==> Priority(s[i].urgency) != p
    ensures Bucket(s, p) == []
  {
    if s != [] {
      BucketEmpty(s[1..], p);
    }
  }

  /** The listing is ordered CRITICAL, URGENT, NORMAL, other. */
  lemma SortIsSorted(s: seq<ActiveCall>)
    ensures SortedByUrgency(SortByUrgency(s))
  {
    var r := SortByUrgency(s);
    forall i, j | 0 <= i < j < |r|
      ensures Priority(r[i].urgency) <= Priority(r[j].urgency)
    {
      var b0, b1, b2, b3 := Bucket(s, 0), Bucket(s, 1), Bucket(s, 2), Bucket(s, 3);
      assert r == b0 + b1 + b2 + b3;
      assert i < |b0| ==> r[i] == b0[i];
      assert |b0| <= i < |b0| + |b1| ==> r[i] == b1[i - |b0|];
      assert |b0| + |b1| <= i < |b0| + |b1| + |b2| ==> r[i] == b2[i - |b0| - |b1|];
      assert |b0| + |b1| + |b2| <= i ==> r[i] == b3[i - |b0| - |b1| - |b2|];
      assert j < |b0| ==> r[j] == b0[j];
      assert |b0| <= j < |b0| + |b1| ==> r[j] == b1[j - |b0|];
      assert |b0| + |b1| <= j < |b0| + |b1| + |b2| ==> r[j] == b2[j - |b0| - |b1|];
      assert |b0| + |b1| + |b2| <= j ==> r[j] == b3[j - |b0| - |b1| - |b2|];
    }
  }

  /** The listing holds the same rows, each as often: a permutation. */
  lemma BucketMultiset(s: seq<ActiveCall>, p: nat)
    requires s != []
    ensures multiset(Bucket(s, p))
            == (if Priority(s[0].urgency) == p then multiset{s[0]} else multiset{}) + multiset(Bucket(s[1..], p))
  {
  }

  lemma MultisetOfSort(s: seq<ActiveCall>)
    ensures multiset(SortByUrgency(s))
            == multiset(Bucket(s, 0)) + multiset(Bucket(s, 1)) + multiset(Bucket(s, 2)) + multiset(Bucket(s, 3))
  {
  }

  lemma RegroupOne(n0: multiset<ActiveCall>, n1: multiset<ActiveCall>, n2: multiset<ActiveCall>, n3: multiset<ActiveCall>,
                   m0: multiset<ActiveCall>, m1: multiset<ActiveCall>, m2: multiset<ActiveCall>, m3: multiset<ActiveCall>,
                   x: ActiveCall, q: nat)
    requires q <= 3
    requires n0 == (if q == 0 then multiset{x} else multiset{}) + m0
    requires n1 == (if q == 1 then multiset{x} else multiset{}) + m1
    requires n2 == (if q == 2 then multiset{x} else multiset{}) + m2
    requires n3 == (if q == 3 then multiset{x} else multiset{}) + m3
    ensures n0 + n1 + n2 + n3 == m0 + m1 + m2 + m3 + multiset{x}
  {
  }

  lemma {:induction false} SortIsPermutation(s: seq<ActiveCall>)
    ensures multiset(SortByUrgency(s)) == multiset(s)
  {
    if s != [] {
      SortIsPermutation(s[1..]);
      SortTakesHead(s);
      HeadAndTail(s);
    }
  }

  /** Sorting a non-empty listing gives the head plus the sorted tail, as multisets. */
  lemma SortTakesHead(s: seq<ActiveCall>)
    requires s != []
    ensures multiset(SortByUrgency(s)) == multiset(SortByUrgency(s[1..])) + multiset{s[0]}
  {
    var x, rest := s[0], s[1..];
    BucketMultiset(s, 0);
    BucketMultiset(s, 1);
    BucketMultiset(s, 2);
    BucketMultiset(s, 3);
    MultisetOfSort(s);
    MultisetOfSort(rest);
    RegroupOne(multiset(Bucket(s, 0)), multiset(Bucket(s, 1)), multiset(Bucket(s, 2)), multiset(Bucket(s, 3)),
               multiset(Bucket(rest, 0)), multiset(Bucket(rest, 1)), multiset(Bucket(rest, 2)), multiset(Bucket(rest, 3)),
               x, Priority(x.urgency));
  }

  lemma HeadAndTail(s: seq<ActiveCall>)
    requires s != []
    ensures multiset(s) == multiset(s[1..]) + multiset{s[0]}
  {
    assert s == [s[0]] + s[1..];
  }

  /** Rows of equal priority keep their database order: the sort is stable. */
  lemma SortIsStable(s: seq<ActiveCall>, p: nat)
    ensures Bucket(SortByUrgency(s), p) == Bucket(s, p)
  {
    BucketOfSort(s, p);
    BucketOfBucket(s, p, 0);
    BucketOfBucket(s, p, 1);
    BucketOfBucket(s, p, 2);
    BucketOfBucket(s, p, 3);
    if p > 3 {
      BucketEmpty(s, p);
    }
    OnlyOneBucket(Bucket(Bucket(s, 0), p), Bucket(Bucket(s, 1), p), Bucket(Bucket(s, 2), p), Bucket(Bucket(s, 3), p),
                  p, Bucket(s, p));
  }

  lemma OnlyOneBucket(y0: seq<ActiveCall>, y1: seq<ActiveCall>, y2: seq<ActiveCall>, y3: seq<ActiveCall>,
                      p: nat, target: seq<ActiveCall>)
    requires y0 == (if p == 0 then target else []) && y1 == (if p == 1 then target else [])
    requires y2 == (if p == 2 then target else []) && y3 == (if p == 3 then target else [])
    requires p > 3 ==> target == []
    ensures y0 + y1 + y2 + y3 == target
  {
    if p == 0 {
      assert y0 + y1 + y2 + y3 == target + [] + [] + [];
    } else if p == 1 {
      assert y0 + y1 + y2 + y3 == [] + target + [] + [];
    } else if p == 2 {
      assert y0 + y1 + y2 + y3 == [] + [] + target + [];
    } else if p == 3 {
      assert y0 + y1 + y2 + y3 == [] + [] + [] + target;
    }
  }

  lemma BucketOfSort(s: seq<ActiveCall>, p: nat)
    ensures Bucket(SortByUrgency(s), p)
         == Bucket(Bucket(s, 0), p) + Bucket(Bucket(s, 1), p) + Bucket(Bucket(s, 2), p) + Bucket(Bucket(s, 3), p)
  {
    var b0, b1, b2, b3 := Bucket(s, 0), Bucket(s, 1), Bucket(s, 2), Bucket(s, 3);
    BucketAppend(b0 + b1 + b2, b3, p);
    BucketAppend(b0 + b1, b2, p);
    BucketAppend(b0, b1, p);
  }

  lemma SortedTail(t: seq<ActiveCall>)
    requires SortedByUrgency(t) && t != []
    ensures SortedByUrgency(t[1..])
    ensures forall i :: 0 <= i < |t[1..]| ==> Priority(t[0].urgency) <= Priority(t[1..][i].urgency)
  {
    var rest := t[1..];
    forall i, j | 0 <= i < j < |rest|
      ensures Priority(rest[i].urgency) <= Priority(rest[j].urgency)
    {
      assert rest[i] == t[i + 1] && rest[j] == t[j + 1];
    }
    forall i | 0 <= i < |rest|
      ensures Priority(t[0].urgency) <= Priority(rest[i].urgency)
    {
      assert rest[i] == t[i + 1];
    }
  }

  lemma LowerBucketsEmpty(rest: seq<ActiveCall>, q: nat)
    requires forall i :: 0 <= i < |rest| ==> q <= Priority(rest[i].urgency)
    ensures forall p: nat :: p < q ==> Bucket(rest, p) == []
  {
    forall p: nat | p < q
      ensures Bucket(rest, p) == []
    {
      BucketEmpty(rest, p);
    }
  }

  lemma RegroupHead(b0: seq<ActiveCall>, b1: seq<ActiveCall>, b2: seq<ActiveCall>, b3: seq<ActiveCall>,
                    c0: seq<ActiveCall>, c1: seq<ActiveCall>, c2: seq<ActiveCall>, c3: seq<ActiveCall>,
                    x: ActiveCall, q: nat)
    requires q <= 3
    requires b0 == (if q == 0 then [x] else []) + c0 && (0 < q ==> c0 == [])
    requires b1 == (if q == 1 then [x] else []) + c1 && (1 < q ==> c1 == [])
    requires b2 == (if q == 2 then [x] else []) + c2 && (2 < q ==> c2 == [])
    requires b3 == (if q == 3 then [x] else []) + c3
    ensures b0 + b1 + b2 + b3 == [x] + (c0 + c1 + c2 + c3)
  {
  }

  /** A sorted listing is already in bucket order. */
  lemma {:induction false} SortedIsOwnSort(t: seq<ActiveCall>)
    requires SortedByUrgency(t)
    ensures SortByUrgency(t) == t
  {
    if t != [] {
      var x, rest := t[0], t[1..];
      SortedTail(t);
      SortedIsOwnSort(rest);
      var q := Priority(x.urgency);
      LowerBucketsEmpty(rest, q);
      assert t == [x] + rest;
      BucketCons(x, rest, 0);
      BucketCons(x, rest, 1);
      BucketCons(x, rest, 2);
      BucketCons(x, rest, 3);
      RegroupHead(Bucket(t, 0), Bucket(t, 1), Bucket(t, 2), Bucket(t, 3),
                  Bucket(rest, 0), Bucket(rest, 1), Bucket(rest, 2), Bucket(rest, 3), x, q);
    }
  }

  /** Sorted, with each priority's rows in their original order, determines
      the listing: any such arrangement is the one produced. */
  lemma StableSortIsUnique(s: seq<ActiveCall>, t: seq<ActiveCall>)
    requires SortedByUrgency(t)
    requires forall p: nat :: p <= 3 ==> Bucket(t, p) == Bucket(s, p)
    ensures t == SortByUrgency(s)
  {
    SortedIsOwnSort(t);
    assert Bucket(t, 0) == Bucket(s, 0) && Bucket(t, 1) == Bucket(s, 1);
    assert Bucket(t, 2) == Bucket(s, 2) && Bucket(t, 3) == Bucket(s, 3);
  }

  /** A call with no urgency sorts as NORMAL; a lower-case level is not
      recognised and sorts last. */
  lemma PriorityDefaults(id: string, c: StoredCall)
    requires c.urgency == None
    ensures Priority(View(id, c).urgency) == 2 && Priority("critical") == 3
  {
  }

  // -----------------------------------------------------------------------
  // The endpoint
  // -----------------------------------------------------------------------

  /** The filtering loop of get_active_calls. */
  method FilterCalls(items: seq<(string, StoredCall)>, admin: string, workers: seq<string>)
    returns (filtered: seq<ActiveCall>)
    ensures filtered == Visible(items, admin, workers)
  {
    filtered := [];
    var i := 0;
    while i < |items|
      invariant 0 <= i <= |items|
      invariant filtered == Visible(items[..i], admin, workers)
    {
      var (callId, call) := items[i];
      if call.adminId == Some(admin) || (!Truthy(call.adminId) && call.workerId.Some? && call.workerId.value in workers) {
        filtered := filtered + [View(callId, call)];
      }
      assert items[..i + 1][..i] == items[..i];
      i := i + 1;
    }
    assert items[..|items|] == items;
  }

  /** get_active_calls: the visible calls, most urgent first. */
  method GetActiveCalls(items: seq<(string, StoredCall)>, admin: string, workers: seq<string>)
    returns (calls: seq<ActiveCall>)
    ensures SortedByUrgency(calls)
    ensures multiset(calls) == multiset(Visible(items, admin, workers))
    ensures forall p: nat :: Bucket(calls, p) == Bucket(Visible(items, admin, workers), p)
  {
    var filtered := FilterCalls(items, admin, workers);
    calls := SortByUrgency(filtered);
    SortIsSorted(filtered);
    SortIsPermutation(filtered);
    forall p: nat
      ensures Bucket(calls, p) == Bucket(filtered, p)
    {
      SortIsStable(filtered, p);
    }
  }

  // -----------------------------------------------------------------------
  // create_worker
  // -----------------------------------------------------------------------

  const Separators: set<char> := {'+', '-', ' '}

  /** The three replace('…', '') calls: the separators removed. */
  function CleanMobile(mobile: string): (r: string)
    ensures forall i :: 0 <= i < |r| ==> r[i] !in Separators
  {
    RemoveChars(mobile, Separators)
  }

  /** str.isdigit: non-empty and all digits. */
  predicate AllDigits(s: string) {
    |s| > 0 && forall i :: 0 <= i < |s| ==> IsDigit(s[i])
  }

  datatype WorkerOutcome = BadRequest | Conflict | Created(workerId: string)

  /** The checks of create_worker before the worker document is written;
      `existing` holds the ids of the worker documents already stored. */
  function CreateWorker(mobile: string, existing: set<string>): WorkerOutcome {
    var clean := CleanMobile(mobile);
    if !AllDigits(clean) then BadRequest
    else if "worker_" + clean in existing then Conflict
    else Created("worker_" + clean)
  }

  /** A worker is created exactly when the cleaned number is a non-empty
      string of digits and its id is new; the id is "worker_" and those
      digits. */
  lemma CreatedExactly(mobile: string, existing: set<string>)
    ensures CreateWorker(mobile, existing).Created?
            <==> AllDigits(CleanMobile(mobile)) && "worker_" + CleanMobile(mobile) !in existing
    ensures CreateWorker(mobile, existing).BadRequest? <==> !AllDigits(CleanMobile(mobile))
    ensures CreateWorker(mobile, existing).Created? ==>
              var id := CreateWorker(mobile, existing).workerId;
              StartsWith(id, "worker_") && AllDigits(id[7..]) && id !in existing
  {
    if CreateWorker(mobile, existing).Created? {
      var id := CreateWorker(mobile, existing).workerId;
      assert id[7..] == CleanMobile(mobile);
    }
  }

  /** Cleaning a cleaned number changes nothing. */
  lemma CleanIdempotent(mobile: string)
    ensures CleanMobile(CleanMobile(mobile)) == CleanMobile(mobile)
  {
    RemoveCharsKeepsOthers(CleanMobile(mobile), Separators);
  }

  /** The same number written with other separators names the same worker,
      so registering it again is a conflict. */
  lemma SameNumberConflicts(m1: string, m2: string, existing: set<string>)
    requires CleanMobile(m1) == CleanMobile(m2)
    requires CreateWorker(m1, existing).Created?
    ensures CreateWorker(m2, existing + {CreateWorker(m1, existing).workerId}) == Conflict
  {
  }

  /** "+1 5-0" is the worker "worker_150"; a number of separators only is
      rejected. */
  lemma CleanExample()
    ensures CreateWorker("+1 5-0", {}) == Created("worker_150")
    ensures CreateWorker(" - ", {}) == BadRequest
  {
    assert CleanMobile("0") == "0";
    assert CleanMobile("-0") == "0";
    assert CleanMobile("5-0") == "50";
    assert CleanMobile(" 5-0") == "50";
    assert CleanMobile("1 5-0") == "150";
    assert CleanMobile("+1 5-0") == "150";
    assert CleanMobile(" - ") == "";
  }
}
