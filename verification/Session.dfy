/**
  A session: subscriptions, the packet-identifier allocator and the in-flight lists of
  sections 2.3.1, 4.3 and 4.4 of MQTT 3.1.1. `SessionState` is the value of the mutable
  `Session` object; every method of the object is proved against a function on it.
 */
module Sessions {
  import opened Basics
  import opened Packets

  datatype Sub = Sub(qos: byte, wild: bool)

  datatype SessionState = SessionState(
    next: uint16,
    subs: map<Str, Sub>,
    pubrel: seq<uint16>,
    forAck: seq<Publish>,
    forRec: seq<Publish>,
    pubcomp: seq<uint16>)

  const NewSession := SessionState(1, map[], [], [], [], [])

  function Ids(ps: seq<Publish>): set<uint16> {
    set i | 0 <= i < |ps| :: ps[i].packetId
  }

  /** The identifiers of exchanges this side started and has not finished. */
  function Used(s: SessionState): set<uint16> {
    Ids(s.forAck) + Ids(s.forRec) + (set id | id in s.pubcomp)
  }

  // ---------------------------------------------------------------- the allocator

  const MAX_ID: nat := 0xFFFF

  /** The candidate drawn when the cursor stands at `next`: zero is skipped. */
  function Candidate(next: uint16): (id: uint16)
    ensures id != 0
  {
    if next == 0 then 1 else next
  }

  /** The cursor after drawing id; it wraps around at 16 bits. */
  function After(id: uint16): uint16 { (id + 1) % 0x1_0000 }

  datatype Draw = Draw(found: bool, id: uint16, next: uint16)

  /** Up to n candidates. */
  function Search(next: uint16, used: set<uint16>, n: nat): Draw
    decreases n, next
  {
    if n == 0 then Draw(false, 0, next)
    else
      var c := Candidate(next);
      if c in used then Search(After(c), used, n - 1) else Draw(true, c, After(c))
  }

  lemma SearchStep(next: uint16, used: set<uint16>, n: nat)
    requires n > 0
    ensures Search(next, used, n) ==
      var c := Candidate(next); if c in used then Search(After(c), used, n - 1) else Draw(true, c, After(c))
  {
  }

  /** One call: among one more candidate than there are identifiers in use, one is free, if any is. */
  function Call(next: uint16, used: set<uint16>): Draw {
    Search(next, used, |used| + 1)
  }

  /** `new_packet_id`; not found means its loop never ends, every identifier being in flight. */
  function NewId(s: SessionState): Draw {
    Call(s.next, Used(s))
  }

  /** The k-th candidate from a cursor. */
  function Nth(next: uint16, k: nat): (id: uint16)
    ensures id != 0
  {
    Candidate(if k == 0 then next else After(Nth(next, k - 1)))
  }

  /** The candidates run through the nonzero identifiers in a cycle. */
  lemma {:induction false} NthClosed(next: uint16, k: nat)
    ensures Nth(next, k) == (Candidate(next) - 1 + k) % MAX_ID + 1
  {
    if k > 0 {
      NthClosed(next, k - 1);
      ModNext(Candidate(next) - 2 + k);
    }
  }

  /** A new session draws 1, 2, 3 and so on, up to 65,535, and then 1 again. */
  lemma FreshCandidates(k: nat)
    ensures Nth(NewSession.next, k) == k % MAX_ID + 1
  {
    NthClosed(NewSession.next, k);
  }

  lemma ModNext(a: nat)
    ensures (a + 1) % MAX_ID == if a % MAX_ID == MAX_ID - 1 then 0 else a % MAX_ID + 1
  {
  }

  lemma {:induction false} NthAfter(next: uint16, k: nat)
    ensures Nth(After(Candidate(next)), k) == Nth(next, k + 1)
  {
    if k > 0 { NthAfter(next, k - 1); }
  }

  lemma ModWrap(k: nat)
    ensures (MAX_ID + k) % MAX_ID == k % MAX_ID
  {
  }

  /** How many candidates a search draws. */
  function Tries(next: uint16, used: set<uint16>, n: nat): nat
    decreases n, next
  {
    if n == 0 then 0
    else if Candidate(next) in used then 1 + Tries(After(Candidate(next)), used, n - 1)
    else 1
  }

  /** The search draws Nth(next, 0), Nth(next, 1), ... : all of them in use except the one it returns. */
  lemma {:induction false} SearchDraws(next: uint16, used: set<uint16>, n: nat)
    ensures var r, t := Search(next, used, n), Tries(next, used, n);
      && t <= n
      && (r.found ==> t >= 1 && r.id == Nth(next, t - 1) && r.id !in used && r.next == After(r.id))
      && (!r.found ==> t == n)
      && (forall k: nat :: k < (if r.found then t - 1 else t) ==> Nth(next, k) in used)
    decreases n
  {
    if n > 0 {
      var c := Candidate(next);
      if c in used {
        SearchDraws(After(c), used, n - 1);
        var r, t := Search(next, used, n), Tries(next, used, n);
        forall k: nat | k < (if r.found then t - 1 else t) ensures Nth(next, k) in used {
          if k > 0 { NthAfter(next, k - 1); }
        }
        if r.found { NthAfter(next, t - 2); }
      }
    }
  }

  /** The first n candidates, as a set. */
  ghost function Drawn(next: uint16, n: nat): set<uint16> {
    set k: nat | k < n :: Nth(next, k)
  }

  lemma NthDistinct(next: uint16, i: nat, j: nat)
    requires i < j && j - i < MAX_ID
    ensures Nth(next, i) != Nth(next, j)
  {
    NthClosed(next, i);
    NthClosed(next, j);
    DivMod(Candidate(next) - 1 + i, Candidate(next) - 1 + j);
  }

  /** Equal remainders lie a whole number of cycles apart. */
  lemma DivMod(a: nat, b: nat)
    requires a < b
    ensures a % MAX_ID == b % MAX_ID ==> b - a >= MAX_ID
  {
    assert a == MAX_ID * (a / MAX_ID) + a % MAX_ID && b == MAX_ID * (b / MAX_ID) + b % MAX_ID;
  }

  lemma {:induction false} DrawnSize(next: uint16, n: nat)
    requires n <= MAX_ID
    ensures |Drawn(next, n)| == n
  {
    if n > 0 {
      DrawnSize(next, n - 1);
      forall k: nat | k < n - 1 ensures Nth(next, k) != Nth(next, n - 1) { NthDistinct(next, k, n - 1); }
      assert Drawn(next, n) == Drawn(next, n - 1) + {Nth(next, n - 1)};
    }
  }

  lemma SubsetSize<T>(a: set<T>, b: set<T>)
    requires a <= b
    ensures |a| <= |b|
  {
    assert b == a + (b - a);
  }

  /** A full cycle draws every nonzero identifier. */
  lemma NthOnto(next: uint16, id: uint16) returns (k: nat)
    requires id != 0
    ensures k < MAX_ID && Nth(next, k) == id
  {
    var p := Candidate(next) - 1;
    k := if id - 1 >= p then id - 1 - p else id - 1 - p + MAX_ID;
    NthClosed(next, k);
    if id - 1 < p { ModWrap(id - 1); }
  }

  /** A search that fails has drawn every nonzero identifier, all in use. */
  lemma CallFails(next: uint16, used: set<uint16>, id: uint16)
    requires !Call(next, used).found && id != 0
    ensures id in used
  {
    var n := |used| + 1;
    SearchDraws(next, used, n);
    if n <= MAX_ID {
      DrawnSize(next, n);
      SubsetSize(Drawn(next, n), used);
    } else {
      var k := NthOnto(next, id);
      assert Nth(next, k) in used;
    }
  }

  /** Main result on the allocator. It returns iff some nonzero identifier is free; the identifier is
      nonzero and in none of the three lists; and at most one more candidate is drawn than are in use. */
  lemma AllocatorCorrect(s: SessionState)
    ensures var r := NewId(s);
      && (r.found <==> exists id: uint16 :: id != 0 && id !in Used(s))
      && (r.found ==> r.id != 0 && r.id !in Used(s) && r.next == After(r.id))
      && Tries(s.next, Used(s), |Used(s)| + 1) <= |Used(s)| + 1
  {
    SearchDraws(s.next, Used(s), |Used(s)| + 1);
    if NewId(s).found {
      assert NewId(s).id != 0;
    } else {
      forall id: uint16 | id != 0 ensures id in Used(s) { CallFails(s.next, Used(s), id); }
    }
  }

  /** The search ends whenever fewer than 65,535 identifiers are in flight. */
  lemma AllocatorTerminates(s: SessionState)
    requires |Used(s)| < MAX_ID
    ensures NewId(s).found
  {
    var n := |Used(s)| + 1;
    SearchDraws(s.next, Used(s), n);
    if !NewId(s).found {
      DrawnSize(s.next, n);
      SubsetSize(Drawn(s.next, n), Used(s));
    }
  }

  /** How many nonzero identifiers are in flight. */
  function Taken(s: SessionState): nat {
    |Used(s) - {0}|
  }

  /** Exactly when the search ends: fewer than 65,535 nonzero identifiers are in flight. */
  lemma AllocatorEndsIff(s: SessionState)
    ensures NewId(s).found <==> Taken(s) < MAX_ID
  {
    AllocatorCorrect(s);
    FullCycle(s.next, MAX_ID);
    var all := Drawn(s.next, MAX_ID);
    if NewId(s).found {
      var id := NewId(s).id;
      forall x | x in Used(s) - {0} ensures x in all - {id} { assert x in all; }
      SubsetSize(Used(s) - {0}, all - {id});
    } else {
      forall x | x in all ensures x in Used(s) - {0} { assert x != 0; }
      SubsetSize(all, Used(s) - {0});
    }
  }

  lemma FullCycle(next: uint16, n: nat)
    requires n == MAX_ID
    ensures |Drawn(next, n)| == MAX_ID && 0 !in Drawn(next, n) && forall id: uint16 :: id != 0 ==> id in Drawn(next, n)
  {
    DrawnSize(next, n);
    forall id: uint16 | id != 0 ensures id in Drawn(next, n) {
      var k := NthOnto(next, id);
      assert Nth(next, k) in Drawn(next, n);
    }
  }

  // Successive allocations, the identifiers in flight at each call being given.

  function Cursor(next: uint16, useds: seq<set<uint16>>, m: nat): uint16
    requires m <= |useds|
  {
    if m == 0 then next else Call(Cursor(next, useds, m - 1), useds[m - 1]).next
  }

  function Returned(next: uint16, useds: seq<set<uint16>>, m: nat): Draw
    requires m < |useds|
  {
    Call(Cursor(next, useds, m), useds[m])
  }

  /** Candidates drawn by the first m calls. */
  function Offset(next: uint16, useds: seq<set<uint16>>, m: nat): nat
    requires m <= |useds|
  {
    if m == 0 then 0
    else Offset(next, useds, m - 1) + Tries(Cursor(next, useds, m - 1), useds[m - 1], |useds[m - 1]| + 1)
  }

  lemma {:induction false} NthShift(next: uint16, next': uint16, a: nat, k: nat)
    requires Candidate(next') == Nth(next, a)
    ensures Nth(next', k) == Nth(next, a + k)
  {
    if k > 0 { NthShift(next, next', a, k - 1); }
  }

  /** One call moves the cursor by the candidates it draws, along the one cycle. */
  lemma CallAdvances(start: uint16, c: uint16, used: set<uint16>, n: nat, o: nat)
    requires Candidate(c) == Nth(start, o) && Search(c, used, n).found
    ensures var r, t := Search(c, used, n), Tries(c, used, n);
      t >= 1 && Candidate(r.next) == Nth(start, o + t) && r.id == Nth(start, o + t - 1)
  {
    SearchDraws(c, used, n);
    var t := Tries(c, used, n);
    NthShift(start, c, o, t - 1);
    NthShift(start, c, o, t);
  }

  /** What a call draws from position o on is in use, or is what it returns. */
  lemma CallPasses(start: uint16, c: uint16, used: set<uint16>, n: nat, o: nat, k: nat)
    requires Candidate(c) == Nth(start, o) && Search(c, used, n).found
    requires o <= k < o + Tries(c, used, n)
    ensures Nth(start, k) in used || Nth(start, k) == Search(c, used, n).id
  {
    SearchDraws(c, used, n);
    NthShift(start, c, o, k - o);
  }

  lemma CursorAfter(next: uint16, useds: seq<set<uint16>>, m: nat)
    requires m < |useds|
    ensures Cursor(next, useds, m + 1) == Returned(next, useds, m).next
    ensures var n := |useds[m]| + 1;
      Offset(next, useds, m + 1) == Offset(next, useds, m) + Tries(Cursor(next, useds, m), useds[m], n)
  {
  }

  /** The cursor never skips: call m starts where the earlier calls left off. */
  lemma {:induction false} CursorPosition(next: uint16, useds: seq<set<uint16>>, m: nat)
    requires m <= |useds|
    requires forall i :: 0 <= i < m ==> Returned(next, useds, i).found
    ensures Candidate(Cursor(next, useds, m)) == Nth(next, Offset(next, useds, m))
  {
    if m > 0 {
      CursorPosition(next, useds, m - 1);
      assert Returned(next, useds, m - 1).found;
      CursorAfter(next, useds, m - 1);
      CallAdvances(next, Cursor(next, useds, m - 1), useds[m - 1], |useds[m - 1]| + 1, Offset(next, useds, m - 1));
    }
  }

  /** A point between two values of a function on indices lies between two adjacent ones. */
  lemma {:induction false} Between(f: nat -> nat, i: nat, j: nat, c: nat) returns (m: nat)
    requires i <= j && f(i) <= c < f(j)
    ensures i <= m < j && f(m) <= c < f(m + 1)
    decreases j - i
  {
    if c < f(i + 1) { m := i; } else { m := Between(f, i + 1, j, c); }
  }

  lemma PositionInCycle(next: uint16, a: nat, b: nat, x: uint16) returns (c: nat)
    requires a < b && Nth(next, a) == Nth(next, b) && x != 0
    ensures a < c <= b && Nth(next, c) == x
  {
    if b - a < MAX_ID { NthDistinct(next, a, b); }
    var from := After(Nth(next, a));
    var k := NthOnto(from, x);
    NthShift(next, from, a + 1, k);
    c := a + 1 + k;
  }

  /** Calls i to j, starting at positions `at`, draw x if the candidates just before at(i) and
      just before at(j + 1) are the same. */
  lemma CallInCycle(next: uint16, at: nat -> nat, i: nat, j: nat, x: uint16) returns (m: nat, c: nat)
    requires i <= j && 1 <= at(i) <= at(j) < at(j + 1) && x != 0
    requires Nth(next, at(i) - 1) == Nth(next, at(j + 1) - 1)
    ensures i <= m <= j && at(m) <= c < at(m + 1) && Nth(next, c) == x
  {
    c := PositionInCycle(next, at(i) - 1, at(j + 1) - 1, x);
    m := Between(at, i, j + 1, c);
  }

  lemma {:induction false} OffsetGrows(next: uint16, useds: seq<set<uint16>>, i: nat, j: nat)
    requires i <= j <= |useds|
    ensures Offset(next, useds, i) <= Offset(next, useds, j)
    decreases j
  {
    if i < j { OffsetGrows(next, useds, i, j - 1); }
  }

  /** Call i returns the last candidate before the position where call i + 1 starts. */
  lemma ReturnedPosition(next: uint16, useds: seq<set<uint16>>, i: nat)
    requires i < |useds| && forall k :: 0 <= k <= i ==> Returned(next, useds, k).found
    ensures Offset(next, useds, i + 1) > Offset(next, useds, i)
    ensures Returned(next, useds, i).id == Nth(next, Offset(next, useds, i + 1) - 1)
  {
    CursorPosition(next, useds, i);
    assert Returned(next, useds, i).found;
    CallAdvances(next, Cursor(next, useds, i), useds[i], |useds[i]| + 1, Offset(next, useds, i));
  }

  lemma PositionInCall(next: uint16, useds: seq<set<uint16>>, m: nat, c: nat)
    requires m < |useds| && forall k :: 0 <= k <= m ==> Returned(next, useds, k).found
    requires Offset(next, useds, m) <= c < Offset(next, useds, m + 1)
    ensures Nth(next, c) in useds[m] || Nth(next, c) == Returned(next, useds, m).id
  {
    CursorPosition(next, useds, m);
    assert Returned(next, useds, m).found;
    CallPasses(next, Cursor(next, useds, m), useds[m], |useds[m]| + 1, Offset(next, useds, m), c);
  }

  /** No identifier comes back early: when calls i < j return the same one, every other nonzero
      identifier was returned by, or in flight during, some call after i and up to j. */
  lemma ReuseOnlyAfterFullCycle(next: uint16, useds: seq<set<uint16>>, i: nat, j: nat, x: uint16) returns (m: nat)
    requires i < j < |useds| && x != 0
    requires forall k :: 0 <= k <= j ==> Returned(next, useds, k).found
    requires Returned(next, useds, i).id == Returned(next, useds, j).id
    ensures i < m <= j && (x in useds[m] || x == Returned(next, useds, m).id)
  {
    ReturnedPosition(next, useds, i);
    ReturnedPosition(next, useds, j);
    OffsetGrows(next, useds, i + 1, j);
    var at := (k: nat) => if k <= |useds| then Offset(next, useds, k) else 0;
    var c: nat;
    m, c := CallInCycle(next, at, i + 1, j, x);
    assert at(m) == Offset(next, useds, m) && at(m + 1) == Offset(next, useds, m + 1);
    PositionInCall(next, useds, m, c);
  }

  // ---------------------------------------------------------------- the in-flight lists

  function FindPublish(ps: seq<Publish>, id: uint16): (k: nat)
    ensures k <= |ps|
    ensures forall i :: 0 <= i < k ==> ps[i].packetId != id
    ensures k < |ps| ==> ps[k].packetId == id
  {
    if ps == [] || ps[0].packetId == id then 0 else 1 + FindPublish(ps[1..], id)
  }

  function FindId(ids: seq<uint16>, id: uint16): (k: nat)
    ensures k <= |ids|
    ensures forall i :: 0 <= i < k ==> ids[i] != id
    ensures k < |ids| ==> ids[k] == id
  {
    if ids == [] || ids[0] == id then 0 else 1 + FindId(ids[1..], id)
  }

  /** The three `find` calls of `new_packet_id`. */
  lemma NotUsed(s: SessionState, id: uint16)
    ensures id !in Used(s) <==>
      && FindPublish(s.forAck, id) == |s.forAck| && FindPublish(s.forRec, id) == |s.forRec|
      && FindId(s.pubcomp, id) == |s.pubcomp|
  {
    InIds(s.forAck, id);
    InIds(s.forRec, id);
    var k := FindId(s.pubcomp, id);
    if k < |s.pubcomp| { assert s.pubcomp[k] == id; }
  }

  lemma InIds(ps: seq<Publish>, id: uint16)
    ensures id in Ids(ps) <==> FindPublish(ps, id) < |ps|
  {
    var k := FindPublish(ps, id);
    if k < |ps| { assert ps[k].packetId == id; }
  }

  /** `erase` of the element found at k, if any. */
  function EraseAt<T>(s: seq<T>, k: nat): seq<T>
    requires k <= |s|
  {
    if k == |s| then s else s[..k] + s[k + 1..]
  }

  function ReleaseAck(s: SessionState, id: uint16): SessionState {
    s.(forAck := EraseAt(s.forAck, FindPublish(s.forAck, id)))
  }

  function ReleaseRec(s: SessionState, id: uint16): SessionState {
    s.(forRec := EraseAt(s.forRec, FindPublish(s.forRec, id)))
  }

  function ReleaseComp(s: SessionState, id: uint16): SessionState {
    s.(pubcomp := EraseAt(s.pubcomp, FindId(s.pubcomp, id)))
  }

  function ReleaseRel(s: SessionState, id: uint16): SessionState {
    s.(pubrel := EraseAt(s.pubrel, FindId(s.pubrel, id)))
  }

  /** `handle_pubrec` on the session: release the publish, then wait for PUBCOMP. */
  function Received(s: SessionState, id: uint16): SessionState {
    var t := ReleaseRec(s, id);
    t.(pubcomp := t.pubcomp + [id])
  }

  /** A message sent with a fresh identifier is recorded by its QoS. */
  function Recorded(s: SessionState, p: Publish, next: uint16): SessionState {
    var t := s.(next := next);
    if p.qos == 1 then t.(forAck := t.forAck + [p])
    else if p.qos == 2 then t.(forRec := t.forRec + [p])
    else t
  }

  function Dup(ps: seq<Publish>): (r: seq<Publish>)
    ensures |r| == |ps|
    ensures forall i :: 0 <= i < |ps| ==> r[i] == ps[i].(dup := true)
  {
    seq(|ps|, i requires 0 <= i < |ps| => ps[i].(dup := true))
  }

  /** A replay sets the `dup` field of every pending publish. */
  function Replayed(s: SessionState): SessionState {
    s.(forAck := Dup(s.forAck), forRec := Dup(s.forRec))
  }

  /** For any client: identifiers of pending publishes are nonzero and all distinct, the lists hold
      QoS 1 and QoS 2 respectively, and no publish awaits PUBREC while its identifier awaits PUBCOMP. */
  ghost predicate Phase(s: SessionState) {
    && (forall i :: 0 <= i < |s.forAck| ==> s.forAck[i].packetId != 0 && s.forAck[i].qos == 1)
    && (forall i :: 0 <= i < |s.forRec| ==> s.forRec[i].packetId != 0 && s.forRec[i].qos == 2)
    && (forall i, j :: 0 <= i < j < |s.forAck| ==> s.forAck[i].packetId != s.forAck[j].packetId)
    && (forall i, j :: 0 <= i < j < |s.forRec| ==> s.forRec[i].packetId != s.forRec[j].packetId)
    && (forall i, j :: 0 <= i < |s.forAck| && 0 <= j < |s.forRec| ==> s.forAck[i].packetId != s.forRec[j].packetId)
    && (forall i :: 0 <= i < |s.forRec| ==> s.forRec[i].packetId !in s.pubcomp)
  }

  /** For a client that sends PUBREC only for what awaits it: no identifier is in two places. */
  ghost predicate Strict(s: SessionState) {
    && Phase(s) && NoDup(s.pubcomp)
    && (forall i :: 0 <= i < |s.forAck| ==> s.forAck[i].packetId !in s.pubcomp)
  }

  lemma RecordedKeepsPhase(s: SessionState, p: Publish, next: uint16)
    requires Phase(s) && (p.qos == 1 || p.qos == 2 ==> p.packetId != 0 && p.packetId !in Used(s))
    ensures Phase(Recorded(s, p, next))
    ensures Strict(s) ==> Strict(Recorded(s, p, next))
  {
    assert forall i :: 0 <= i < |s.forAck| ==> s.forAck[i].packetId in Ids(s.forAck);
    assert forall i :: 0 <= i < |s.forRec| ==> s.forRec[i].packetId in Ids(s.forRec);
  }

  /** Every other step of the exchanges keeps the phases, whatever identifier the client names. */
  lemma ReleasesKeepPhase(s: SessionState, id: uint16)
    requires Phase(s)
    ensures Phase(ReleaseAck(s, id)) && Phase(Received(s, id)) && Phase(ReleaseComp(s, id)) && Phase(ReleaseRel(s, id))
    ensures Phase(Replayed(s))
  {
    ReleaseAckKeepsPhase(s, id);
    ReceivedKeepsPhase(s, id);
    ReleaseCompKeepsPhase(s, id);
    ReplayedKeepsPhase(s);
  }

  lemma ReleaseCompKeepsPhase(s: SessionState, id: uint16)
    requires Phase(s)
    ensures Phase(ReleaseComp(s, id))
  {
    EraseMembers(s.pubcomp, FindId(s.pubcomp, id));
  }

  lemma ReplayedKeepsPhase(s: SessionState)
    requires Phase(s)
    ensures Phase(Replayed(s))
  {
  }

  lemma ReleaseAckKeepsPhase(s: SessionState, id: uint16)
    requires Phase(s)
    ensures Phase(ReleaseAck(s, id))
  {
    EraseMembers(s.forAck, FindPublish(s.forAck, id));
  }

  lemma ReceivedKeepsPhase(s: SessionState, id: uint16)
    requires Phase(s)
    ensures Phase(Received(s, id))
  {
    var k := FindPublish(s.forRec, id);
    EraseMembers(s.forRec, k);
    var t := Received(s, id);
    forall i | 0 <= i < |t.forRec| ensures t.forRec[i].packetId !in t.pubcomp {
      assert t.forRec[i] == s.forRec[if i < k then i else i + 1];
    }
  }

  lemma EraseMembers<T>(s: seq<T>, k: nat)
    requires k <= |s|
    ensures var r := EraseAt(s, k);
      && (forall x :: x in r ==> x in s)
      && (forall i :: 0 <= i < |r| ==> r[i] == if i < k then s[i] else s[i + 1])
  {
    var r := EraseAt(s, k);
    forall x | x in r ensures x in s {
      var i :| 0 <= i < |r| && r[i] == x;
      assert x == if i < k then s[i] else s[i + 1];
    }
  }

  /** With a conforming client the lists stay duplicate-free and pairwise disjoint. */
  lemma ConformingKeepsStrict(s: SessionState, id: uint16)
    requires Strict(s)
    ensures Strict(ReleaseAck(s, id)) && Strict(ReleaseComp(s, id)) && Strict(ReleaseRel(s, id)) && Strict(Replayed(s))
    ensures id in Ids(s.forRec) ==> Strict(Received(s, id))
  {
    ReleasesKeepPhase(s, id);
    EraseMembers(s.forAck, FindPublish(s.forAck, id));
    ReleaseCompKeepsStrict(s, id);
    if id in Ids(s.forRec) { ReceivedKeepsStrict(s, id); }
  }

  lemma ReleaseCompKeepsStrict(s: SessionState, id: uint16)
    requires Strict(s)
    ensures Strict(ReleaseComp(s, id))
  {
    ReleaseCompKeepsPhase(s, id);
    EraseMembers(s.pubcomp, FindId(s.pubcomp, id));
  }

  lemma ReceivedKeepsStrict(s: SessionState, id: uint16)
    requires Strict(s) && id in Ids(s.forRec)
    ensures Strict(Received(s, id))
  {
    ReceivedKeepsPhase(s, id);
  }

  /** The caveat, exactly: PUBREC breaks the strict form if and only if its identifier awaits PUBACK or
      PUBCOMP. One that nothing waits for does no harm. */
  lemma StrayPubrec(s: SessionState, id: uint16)
    requires Strict(s)
    ensures Strict(Received(s, id)) <==> id !in Ids(s.forAck) && id !in s.pubcomp
  {
    var t := Received(s, id);
    ReleasesKeepPhase(s, id);
    if id in s.pubcomp {
      var k := FindId(s.pubcomp, id);
      assert t.pubcomp[k] == id && t.pubcomp[|s.pubcomp|] == id;
    }
    if id in Ids(s.forAck) {
      var i :| 0 <= i < |s.forAck| && s.forAck[i].packetId == id;
      assert t.forAck[i].packetId == id && id in t.pubcomp;
    }
  }

  /** Releasing removes the one exchange with that identifier and no other. */
  lemma ReleaseIsExact(s: SessionState, id: uint16)
    requires Phase(s)
    ensures forall p :: p in ReleaseAck(s, id).forAck <==> p in s.forAck && p.packetId != id
    ensures forall p :: p in ReleaseRec(s, id).forRec <==> p in s.forRec && p.packetId != id
  {
    EraseExact(s.forAck, id);
    EraseExact(s.forRec, id);
  }

  /** An exchange carried through gives its identifier back to the allocator: PUBACK for QoS 1, PUBREC and
      then PUBCOMP for QoS 2. */
  lemma CompletedIsFree(s: SessionState, id: uint16)
    requires Strict(s)
    ensures id in Ids(s.forAck) ==> id !in Used(ReleaseAck(s, id))
    ensures id in Ids(s.forRec) ==> id in Used(Received(s, id)) && id !in Used(ReleaseComp(Received(s, id), id))
  {
    ReleaseIsExact(s, id);
    if id in Ids(s.forAck) { AckedIsFree(s, id); }
    if id in Ids(s.forRec) { ReceivedIsFree(s, id); }
  }

  lemma AckedIsFree(s: SessionState, id: uint16)
    requires Strict(s) && id in Ids(s.forAck)
    ensures id !in Used(ReleaseAck(s, id))
  {
    var i :| 0 <= i < |s.forAck| && s.forAck[i].packetId == id;
    GoneIds(s.forAck, id);
  }

  lemma ReceivedIsFree(s: SessionState, id: uint16)
    requires Strict(s) && id in Ids(s.forRec)
    ensures id in Used(Received(s, id)) && id !in Used(ReleaseComp(Received(s, id), id))
  {
    var i :| 0 <= i < |s.forRec| && s.forRec[i].packetId == id;
    var t := Received(s, id);
    GoneIds(s.forRec, id);
    assert t.pubcomp[|s.pubcomp|] == id && FindId(t.pubcomp, id) == |s.pubcomp|;
  }

  lemma GoneIds(ps: seq<Publish>, id: uint16)
    requires forall i, j :: 0 <= i < j < |ps| ==> ps[i].packetId != ps[j].packetId
    ensures id !in Ids(EraseAt(ps, FindPublish(ps, id)))
  {
    var r := EraseAt(ps, FindPublish(ps, id));
    EraseExact(ps, id);
    forall i | 0 <= i < |r| ensures r[i].packetId != id { assert r[i] in r; }
  }

  lemma EraseExact(ps: seq<Publish>, id: uint16)
    requires forall i, j :: 0 <= i < j < |ps| ==> ps[i].packetId != ps[j].packetId
    ensures forall p :: p in EraseAt(ps, FindPublish(ps, id)) <==> p in ps && p.packetId != id
  {
    var k := FindPublish(ps, id);
    var r := EraseAt(ps, k);
    forall p | p in ps && p.packetId != id ensures p in r { ErasedKeeps(ps, k, p); }
    forall p | p in r ensures p in ps && p.packetId != id { ErasedOnly(ps, k, p); }
  }

  lemma ErasedKeeps(ps: seq<Publish>, k: nat, p: Publish)
    requires k <= |ps| && p in ps && (k < |ps| ==> p != ps[k])
    ensures p in EraseAt(ps, k)
  {
    EraseMembers(ps, k);
    var i :| 0 <= i < |ps| && ps[i] == p;
    assert EraseAt(ps, k)[if i < k then i else i - 1] == p;
  }

  lemma ErasedOnly(ps: seq<Publish>, k: nat, p: Publish)
    requires forall i, j :: 0 <= i < j < |ps| ==> ps[i].packetId != ps[j].packetId
    requires k <= |ps| && p in EraseAt(ps, k)
    ensures k < |ps| ==> p.packetId != ps[k].packetId
  {
    var i :| 0 <= i < |EraseAt(ps, k)| && EraseAt(ps, k)[i] == p;
    if k < |ps| {
      EraseMembers(ps, k);
      if i < k {
        assert p == ps[i] && ps[i].packetId != ps[k].packetId;
      } else {
        assert p == ps[i + 1] && ps[k].packetId != ps[i + 1].packetId;
      }
    }
  }

  // ---------------------------------------------------------------- the object

  class Session {
    var next: uint16
    var subs: map<Str, Sub>
    var pubrel: seq<uint16>
    var forAck: seq<Publish>
    var forRec: seq<Publish>
    var pubcomp: seq<uint16>

    function Value(): SessionState
      reads this
    {
      SessionState(next, subs, pubrel, forAck, forRec, pubcomp)
    }

    constructor ()
      ensures Value() == NewSession
    {
      next, subs := 1, map[];
      pubrel, forAck, forRec, pubcomp := [], [], [], [];
    }

    /** The two draws of the loop body: zero is never a candidate. */
    method DrawCandidate() returns (id: uint16)
      modifies this`next
      ensures id == Candidate(old(next)) && next == After(id)
    {
      id := next;
      next := After(next);
      if id == 0 {
        id := next;
        next := After(next);
      }
    }

    /** The three `find` calls of the loop body. */
    method InFlight(id: uint16) returns (used: bool)
      ensures used <==> id in Used(Value())
    {
      NotUsed(Value(), id);
      if FindPublish(forAck, id) < |forAck| { return true; }
      if FindPublish(forRec, id) < |forRec| { return true; }
      used := FindId(pubcomp, id) < |pubcomp|;
    }

    /** The retry loop. The source's loop has no bound: when one more candidate than there are identifiers
        in use has failed, all 65,535 are in use and it goes on for ever (CallFails), reported as not found
        with the cursor where it was. */
    method NewPacketId() returns (found: bool, id: uint16)
      modifies this`next
      ensures var r := NewId(old(Value()));
        found == r.found && id == r.id && Value() == if found then old(Value()).(next := r.next) else old(Value())
    {
      ghost var used := Used(Value());
      var first, limit := next, |Used(Value())| + 1;
      var tries := 0;
      while tries < limit
        invariant 0 <= tries <= limit
        invariant Value() == old(Value()).(next := next)
        invariant Call(old(next), used) == Search(next, used, limit - tries)
      {
        SearchStep(next, used, limit - tries);
        var newId := DrawCandidate();
        var taken := InFlight(newId);
        if !taken {
          return true, newId;
        }
        tries := tries + 1;
      }
      found, id, next := false, 0, first;
    }

    method AddSubscription(filter: Str, qos: byte, wild: bool)
      modifies this`subs
      ensures Value() == old(Value()).(subs := old(subs)[filter := Sub(qos, wild)])
    {
      subs := subs - {filter};
      subs := subs[filter := Sub(qos, wild)];
      assert subs == old(subs)[filter := Sub(qos, wild)];
    }

    method DeleteSubscription(filter: Str)
      modifies this`subs
      ensures Value() == old(Value()).(subs := old(subs) - {filter})
    {
      subs := subs - {filter};
    }

    method AddPacketIdForPubrel(id: uint16)
      modifies this`pubrel
      ensures Value() == old(Value()).(pubrel := old(pubrel) + [id])
    {
      pubrel := pubrel + [id];
    }

    method ReleasePacketIdForPubrel(id: uint16)
      modifies this`pubrel
      ensures Value() == ReleaseRel(old(Value()), id)
    {
      pubrel := EraseAt(pubrel, FindId(pubrel, id));
    }

    method AddPacketIdForPubcomp(id: uint16)
      modifies this`pubcomp
      ensures Value() == old(Value()).(pubcomp := old(pubcomp) + [id])
    {
      pubcomp := pubcomp + [id];
    }

    method ReleasePacketIdForPubcomp(id: uint16)
      modifies this`pubcomp
      ensures Value() == ReleaseComp(old(Value()), id)
    {
      pubcomp := EraseAt(pubcomp, FindId(pubcomp, id));
    }

    method AddPublishForAck(p: Publish)
      modifies this`forAck
      ensures Value() == old(Value()).(forAck := old(forAck) + [p])
    {
      forAck := forAck + [p];
    }

    method ReleasePublishForAck(id: uint16)
      modifies this`forAck
      ensures Value() == ReleaseAck(old(Value()), id)
    {
      forAck := EraseAt(forAck, FindPublish(forAck, id));
    }

    method AddPublishForRec(p: Publish)
      modifies this`forRec
      ensures Value() == old(Value()).(forRec := old(forRec) + [p])
    {
      forRec := forRec + [p];
    }

    method ReleasePublishForRec(id: uint16)
      modifies this`forRec
      ensures Value() == ReleaseRec(old(Value()), id)
    {
      forRec := EraseAt(forRec, FindPublish(forRec, id));
    }

    /** The replay of a restored session sets `dup` on each pending publish in turn. */
    method SetDup()
      modifies this`forAck, this`forRec
      ensures Value() == Replayed(old(Value()))
    {
      forAck := Dup(forAck);
      forRec := Dup(forRec);
    }
  }
}
