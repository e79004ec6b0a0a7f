/** Request chains: one row per request lifecycle, moved forward only. */
module Chains {
  import opened Types
  import opened Events

  datatype State = Requested | Approved | PartiallyAvailable | Available | Declined

  // A chain's id is its position: chains are only added.
  datatype Chain = Chain(
    media: Option<nat>, requestId: Option<RequestId>, requestedBy: Option<string>,
    state: State, openedAt: Time, closedAt: Option<Time>)

  // One lifecycle event as `_advance_chain` sees it.
  datatype Move = Move(
    requestId: Option<RequestId>, media: Option<nat>, user: Option<string>,
    state: State, occurred: Time)

  function Rank(s: State): nat {
    match s
    case Requested => 0
    case Approved => 1
    case PartiallyAvailable => 2
    case Available => 3
    case Declined => 3
  }

  predicate Closing(s: State) { s in {Declined, Available} }

  function StateOf(kind: EventType, partial: bool): State
    requires IsLifecycle(kind)
  {
    match kind
    case RequestCreated => Requested
    case RequestApproved => Approved
    case RequestDeclined => Declined
    case RequestAvailable => if partial then PartiallyAvailable else Available
  }

  // ---- Queries ----------------------------------------------------------

  function ByRequest(chains: seq<Chain>, id: RequestId): (hit: Option<nat>)
    ensures hit.Some? ==> hit.value < |chains| && chains[hit.value].requestId == Some(id)
    ensures hit.None? ==> forall i :: 0 <= i < |chains| ==> chains[i].requestId != Some(id)
  {
    if chains == [] then None
    else
      var last := |chains| - 1;
      var before := ByRequest(chains[..last], id);
      if before.Some? then before
      else if chains[last].requestId == Some(id) then Some(last) else None
  }

  predicate OpenOn(c: Chain, media: nat) { c.media == Some(media) && c.closedAt.None? }

  // The open chain of a media row opened last, the oldest row among equals.
  function OpenFor(chains: seq<Chain>, media: nat): (hit: Option<nat>)
    ensures hit.Some? ==> hit.value < |chains| && OpenOn(chains[hit.value], media)
    ensures hit.Some? ==> forall i :: 0 <= i < |chains| && OpenOn(chains[i], media) ==>
      chains[i].openedAt <= chains[hit.value].openedAt
    ensures hit.None? ==> forall i :: 0 <= i < |chains| ==> !OpenOn(chains[i], media)
  {
    if chains == [] then None
    else
      var last := |chains| - 1;
      var before := OpenFor(chains[..last], media);
      if OpenOn(chains[last], media) && (before.None? || chains[before.value].openedAt < chains[last].openedAt)
      then Some(last) else before
  }

  function Target(chains: seq<Chain>, m: Move): Option<nat> {
    var own := if m.requestId.Some? then ByRequest(chains, m.requestId.value) else None;
    if own.Some? then own
    else if m.media.Some? then OpenFor(chains, m.media.value) else None
  }

  // ---- Advancing --------------------------------------------------------

  function Opened(m: Move): Chain {
    Chain(m.media, m.requestId, m.user, m.state, m.occurred, if Closing(m.state) then Some(m.occurred) else None)
  }

  function Updated(c: Chain, m: Move): Chain {
    Chain(Or(c.media, m.media), c.requestId, Or(c.requestedBy, m.user), m.state, c.openedAt,
          if Closing(m.state) then Some(m.occurred) else c.closedAt)
  }

  function Advance(chains: seq<Chain>, m: Move): seq<Chain> {
    var at := Target(chains, m);
    if at.None? then chains + [Opened(m)]
    else
      assert at.value < |chains|;
      var c := chains[at.value];
      if c.closedAt.Some? then chains
      else if Rank(m.state) < Rank(c.state) then chains
      else chains[at.value := Updated(c, m)]
  }

  function AdvanceAll(chains: seq<Chain>, moves: seq<Move>): seq<Chain>
    decreases moves
  {
    if moves == [] then chains else AdvanceAll(Advance(chains, moves[0]), moves[1..])
  }

  // ---- Safety over all runs ---------------------------------------------

  predicate Sound(chains: seq<Chain>) {
    && (forall i :: 0 <= i < |chains| ==> (chains[i].closedAt.Some? <==> Closing(chains[i].state)))
    && (forall i, j :: 0 <= i < j < |chains| && chains[i].requestId.Some? ==>
          chains[i].requestId != chains[j].requestId)
  }

  // `now` comes after `then_`: no chain is lost, moved back, reopened or
  // handed to another request.
  predicate Forward(then_: seq<Chain>, now: seq<Chain>) {
    && |then_| <= |now|
    && forall i :: 0 <= i < |then_| ==>
         && now[i].requestId == then_[i].requestId
         && now[i].openedAt == then_[i].openedAt
         && Rank(then_[i].state) <= Rank(now[i].state)
         && (then_[i].closedAt.Some? ==> now[i] == then_[i])
         && (then_[i].media.Some? ==> now[i].media == then_[i].media)
         && (then_[i].requestedBy.Some? ==> now[i].requestedBy == then_[i].requestedBy)
  }

  lemma AdvanceIsForward(chains: seq<Chain>, m: Move)
    ensures Forward(chains, Advance(chains, m))
    ensures Sound(chains) ==> Sound(Advance(chains, m))
  {
  }

  lemma {:induction false} ChainsStaySound(chains: seq<Chain>, moves: seq<Move>)
    requires Sound(chains)
    ensures Sound(AdvanceAll(chains, moves)) && Forward(chains, AdvanceAll(chains, moves))
    decreases moves
  {
    if moves != [] {
      var next := Advance(chains, moves[0]);
      AdvanceIsForward(chains, moves[0]);
      ChainsStaySound(next, moves[1..]);
    }
  }

  // ---- Re-running one event ---------------------------------------------

  // The event's request has no chain, so it acts on an open chain of its media.
  predicate FallsBack(chains: seq<Chain>, m: Move) {
    && (m.requestId.Some? ==> ByRequest(chains, m.requestId.value).None?)
    && m.media.Some? && OpenFor(chains, m.media.value).Some?
  }

  lemma SameTargetAgain(chains: seq<Chain>, m: Move)
    requires Sound(chains) && m.requestId.Some? && !(FallsBack(chains, m) && Closing(m.state))
    ensures Target(Advance(chains, m), m) == Some(if Target(chains, m).Some? then Target(chains, m).value else |chains|)
  {
    var next := Advance(chains, m);
    AdvanceIsForward(chains, m);
    if ByRequest(chains, m.requestId.value).Some? || Target(chains, m).None? {
      var i := if Target(chains, m).Some? then Target(chains, m).value else |chains|;
      assert next[i].requestId == m.requestId;
      var j := ByRequest(next, m.requestId.value).value;
      assert next[j].requestId == next[i].requestId;
    } else {
      SameOpenChain(chains, next, m.media.value);
    }
  }

  // The choice of open chain depends only on which rows are open and when they opened.
  lemma {:induction false} SameOpenChain(a: seq<Chain>, b: seq<Chain>, media: nat)
    requires |a| == |b|
    requires forall i :: 0 <= i < |a| ==>
      a[i].openedAt == b[i].openedAt && (OpenOn(a[i], media) <==> OpenOn(b[i], media))
    ensures OpenFor(a, media) == OpenFor(b, media)
  {
    if a != [] { SameOpenChain(a[..|a| - 1], b[..|b| - 1], media); }
  }

  // Processing a lifecycle event twice equals processing it once, except in
  // exactly one case: a closing event that acted on another request's chain.
  lemma AdvanceTwice(chains: seq<Chain>, m: Move)
    requires Sound(chains) && m.requestId.Some?
    ensures Advance(Advance(chains, m), m) == Advance(chains, m) <==> !(FallsBack(chains, m) && Closing(m.state))
  {
    var next := Advance(chains, m);
    AdvanceIsForward(chains, m);
    if FallsBack(chains, m) && Closing(m.state) {
      FallbackCloseMovesOn(chains, m);
    } else {
      SameTargetAgain(chains, m);
      var i := Target(next, m).value;
      if next[i].closedAt.None? && Rank(next[i].state) <= Rank(m.state) {
        assert next[i] == Updated(next[i], m);
        assert next[i := next[i]] == next;
      }
    }
  }

  // The excluded case: the rerun no longer sees the chain it closed, so it
  // closes a further chain or opens one.
  lemma FallbackCloseMovesOn(chains: seq<Chain>, m: Move)
    requires Sound(chains) && FallsBack(chains, m) && Closing(m.state)
    ensures Advance(Advance(chains, m), m) != Advance(chains, m)
  {
    var next := Advance(chains, m);
    AdvanceIsForward(chains, m);
    var i := Target(chains, m).value;
    assert next == chains[i := Updated(chains[i], m)];
    if m.requestId.Some? {
      assert forall k :: 0 <= k < |next| ==> next[k].requestId == chains[k].requestId;
      assert ByRequest(next, m.requestId.value).None?;
    }
    var j := Target(next, m);
    if j.Some? {
      assert OpenOn(next[j.value], m.media.value);
      assert Advance(next, m)[j.value].closedAt.Some?;
    } else {
      assert |Advance(next, m)| == |next| + 1;
    }
  }

  // ---- Convergence ------------------------------------------------------

  predicate OneRequest(moves: seq<Move>, id: RequestId) {
    forall i :: 0 <= i < |moves| ==> moves[i].requestId == Some(id)
  }

  // The first closing move, wherever it is.
  function FirstClosing(moves: seq<Move>): (k: Option<nat>)
    ensures k.Some? ==> k.value < |moves| && Closing(moves[k.value].state)
    ensures forall i :: 0 <= i < (if k.Some? then k.value else |moves|) ==> !Closing(moves[i].state)
  {
    if moves == [] then None
    else if Closing(moves[0].state) then Some(0)
    else
      var rest := FirstClosing(moves[1..]);
      assert forall i :: 1 <= i < |moves| ==> moves[i] == moves[1..][i - 1];
      if rest.Some? then Some(rest.value + 1) else None
  }

  // `s` was seen and nothing seen outranks it.
  predicate Highest(moves: seq<Move>, s: State) {
    && (exists i :: 0 <= i < |moves| && moves[i].state == s)
    && (forall i :: 0 <= i < |moves| ==> Rank(moves[i].state) <= Rank(s))
  }

  // What the lifecycle of one request should end in.
  predicate Outcome(moves: seq<Move>, c: Chain) {
    && Highest(moves, c.state)
    && match FirstClosing(moves) {
         case Some(k) => c.state == moves[k].state && c.closedAt == Some(moves[k].occurred)
         case None => c.closedAt.None?
       }
  }

  lemma OutcomeExtends(moves: seq<Move>, m: Move, c: Chain)
    requires moves != [] && Outcome(moves, c)
    ensures Outcome(moves + [m],
                    if c.closedAt.Some? || Rank(m.state) < Rank(c.state) then c else Updated(c, m))
  {
    var all := moves + [m];
    assert forall i :: 0 <= i < |moves| ==> all[i] == moves[i];
    assert all[|moves|] == m;
    var k := FirstClosing(moves);
    var w :| 0 <= w < |moves| && moves[w].state == c.state;
    assert all[w].state == c.state;
    if k.Some? {
      assert FirstClosing(all) == k;
      assert Rank(m.state) <= 3 == Rank(c.state);
    } else {
      assert FirstClosing(all) == if Closing(m.state) then Some(|moves|) else None;
    }
  }

  // From a store in which the request has no chain and the first event's media
  // has no open one, any sequence of the request's events, in any order and
  // with any repetition, adds one chain: its state is the highest-ranked state
  // seen, the first closing event decides between available and declined and
  // gives the closing time, and the first event gives the opening time.
  lemma {:induction false} LifecycleConverges(chains: seq<Chain>, moves: seq<Move>, id: RequestId)
    requires Sound(chains) && moves != [] && OneRequest(moves, id)
    requires ByRequest(chains, id).None? && !FallsBack(chains, moves[0])
    ensures var end := AdvanceAll(chains, moves);
      && |end| == |chains| + 1 && end[..|chains|] == chains
      && end[|chains|].requestId == Some(id) && end[|chains|].openedAt == moves[0].occurred
      && Outcome(moves, end[|chains|])
    decreases |moves|
  {
    var last := |moves| - 1;
    var before, m := moves[..last], moves[last];
    assert before + [m] == moves;
    AdvanceAppend(chains, before, m);
    if before == [] {
      assert Advance(chains, m) == chains + [Opened(m)];
      assert moves == [m];
      assert FirstClosing(moves) == if Closing(m.state) then Some(0) else None;
    } else {
      LifecycleConverges(chains, before, id);
      ChainsStaySound(chains, before);
      var mid := AdvanceAll(chains, before);
      var c := mid[|chains|];
      assert ByRequest(mid, id) == Some(|chains|);
      OutcomeExtends(before, m, c);
      var end := Advance(mid, m);
      assert end[..|chains|] == mid[..|chains|];
    }
  }

  lemma {:induction false} AdvanceAppend(chains: seq<Chain>, moves: seq<Move>, m: Move)
    ensures AdvanceAll(chains, moves + [m]) == Advance(AdvanceAll(chains, moves), m)
    decreases moves
  {
    if moves == [] {
      assert moves + [m] == [m] && [m][1..] == [];
      assert AdvanceAll(chains, [m]) == AdvanceAll(Advance(chains, m), []);
    } else {
      assert (moves + [m])[1..] == moves[1..] + [m];
      AdvanceAppend(Advance(chains, moves[0]), moves[1..], m);
    }
  }

  // Nothing before it closes the chain or outranks it.
  predicate Timely(moves: seq<Move>, i: nat)
    requires i < |moves|
  {
    forall j :: 0 <= j < i ==> !Closing(moves[j].state) && Rank(moves[j].state) <= Rank(moves[i].state)
  }

  // Media and requester are those of some event, the first one's if it has any,
  // and known as soon as a timely event tells them.
  predicate Filled(moves: seq<Move>, c: Chain)
    requires moves != []
  {
    FilledMedia(moves, c.media) && FilledUser(moves, c.requestedBy)
  }

  predicate FilledMedia(moves: seq<Move>, media: Option<nat>)
    requires moves != []
  {
    && (media.Some? ==> exists i :: 0 <= i < |moves| && moves[i].media == media)
    && (moves[0].media.Some? ==> media == moves[0].media)
    && (forall i :: 0 <= i < |moves| && Timely(moves, i) && moves[i].media.Some? ==> media.Some?)
  }

  predicate FilledUser(moves: seq<Move>, user: Option<string>)
    requires moves != []
  {
    && (user.Some? ==> exists i :: 0 <= i < |moves| && moves[i].user == user)
    && (moves[0].user.Some? ==> user == moves[0].user)
    && (forall i :: 0 <= i < |moves| && Timely(moves, i) && moves[i].user.Some? ==> user.Some?)
  }

  lemma TimelyExtends(moves: seq<Move>, m: Move)
    ensures forall i :: 0 <= i < |moves| ==> (Timely(moves + [m], i) <==> Timely(moves, i))
  {
    assert forall i :: 0 <= i < |moves| ==> (moves + [m])[i] == moves[i];
  }

  // A timely event is taken: the chain is open and not further on.
  lemma TimelyIsTaken(moves: seq<Move>, m: Move, c: Chain)
    requires moves != [] && Outcome(moves, c) && Timely(moves + [m], |moves|)
    ensures c.closedAt.None? && Rank(c.state) <= Rank(m.state)
  {
    var all := moves + [m];
    assert forall i :: 0 <= i < |moves| ==> all[i] == moves[i];
    var w :| 0 <= w < |moves| && moves[w].state == c.state;
    assert all[w].state == c.state && all[|moves|] == m;
  }

  lemma MediaExtends(moves: seq<Move>, m: Move, media: Option<nat>, taken: bool)
    requires moves != [] && FilledMedia(moves, media) && (Timely(moves + [m], |moves|) ==> taken)
    ensures FilledMedia(moves + [m], if taken then Or(media, m.media) else media)
  {
    var all := moves + [m];
    TimelyExtends(moves, m);
    assert forall i :: 0 <= i < |moves| ==> all[i] == moves[i];
    assert all[|moves|] == m;
  }

  lemma UserExtends(moves: seq<Move>, m: Move, user: Option<string>, taken: bool)
    requires moves != [] && FilledUser(moves, user) && (Timely(moves + [m], |moves|) ==> taken)
    ensures FilledUser(moves + [m], if taken then Or(user, m.user) else user)
  {
    var all := moves + [m];
    TimelyExtends(moves, m);
    assert forall i :: 0 <= i < |moves| ==> all[i] == moves[i];
    assert all[|moves|] == m;
  }

  lemma FilledExtends(moves: seq<Move>, m: Move, c: Chain)
    requires moves != [] && Outcome(moves, c) && Filled(moves, c)
    ensures Filled(moves + [m], if c.closedAt.Some? || Rank(m.state) < Rank(c.state) then c else Updated(c, m))
  {
    var taken := c.closedAt.None? && Rank(c.state) <= Rank(m.state);
    if Timely(moves + [m], |moves|) { TimelyIsTaken(moves, m, c); }
    MediaExtends(moves, m, c.media, taken);
    UserExtends(moves, m, c.requestedBy, taken);
  }

  // An event of a request that has its chain acts on that.
  lemma AdvanceOwn(chains: seq<Chain>, m: Move, n: nat)
    requires Sound(chains) && n < |chains| && m.requestId.Some? && chains[n].requestId == m.requestId
    ensures var c := chains[n];
      Advance(chains, m) == chains[n := if c.closedAt.Some? || Rank(m.state) < Rank(c.state) then c else Updated(c, m)]
  {
    var at := ByRequest(chains, m.requestId.value).value;
    assert at == n;
    assert chains[n := chains[n]] == chains;
  }

  lemma {:induction false} ChainIsFilled(chains: seq<Chain>, moves: seq<Move>, id: RequestId)
    requires Sound(chains) && moves != [] && OneRequest(moves, id)
    requires ByRequest(chains, id).None? && !FallsBack(chains, moves[0])
    ensures |AdvanceAll(chains, moves)| == |chains| + 1 && Filled(moves, AdvanceAll(chains, moves)[|chains|])
  {
    var last := |moves| - 1;
    var before, m := moves[..last], moves[last];
    assert before + [m] == moves;
    AdvanceAppend(chains, before, m);
    if before == [] {
      assert Advance(chains, m) == chains + [Opened(m)];
    } else {
      ChainIsFilled(chains, before, id);
      LifecycleConverges(chains, before, id);
      ChainsStaySound(chains, before);
      AdvanceOwn(AdvanceAll(chains, before), m, |chains|);
      FilledExtends(before, m, AdvanceAll(chains, before)[|chains|]);
    }
  }

  predicate OneClosingKind(moves: seq<Move>) {
    forall i, j :: 0 <= i < |moves| && 0 <= j < |moves| && Closing(moves[i].state) && Closing(moves[j].state) ==>
      moves[i].state == moves[j].state
  }

  lemma OutcomesAgree(a: seq<Move>, b: seq<Move>, x: Chain, y: Chain)
    requires Outcome(a, x) && Outcome(b, y) && OneClosingKind(a)
    requires forall m :: m in a <==> m in b
    ensures x.state == y.state && (x.closedAt.Some? <==> y.closedAt.Some?)
  {
    var i :| 0 <= i < |a| && a[i].state == x.state;
    var j :| 0 <= j < |b| && b[j].state == y.state;
    assert a[i] in b && b[j] in a;
    var j' :| 0 <= j' < |a| && a[j'] == b[j];
    assert Rank(x.state) == Rank(y.state);
    assert Closing(x.state) ==> a[i].state == a[j'].state;
  }

  lemma SameElements(a: seq<Move>, b: seq<Move>, id: RequestId)
    requires multiset(a) == multiset(b) && a != [] && OneRequest(a, id)
    ensures forall m :: m in a <==> m in b
    ensures b != [] && OneRequest(b, id) && b[0] in a
  {
    assert forall m :: m in a <==> m in multiset(a);
    assert forall m :: m in b <==> m in multiset(b);
    assert a[0] in b;
    assert forall i :: 0 <= i < |b| ==> b[i] in b && b[i] in a;
  }

  // With at most one closing kind, delivery order does not matter.
  lemma OrderDoesNotMatter(chains: seq<Chain>, a: seq<Move>, b: seq<Move>, id: RequestId)
    requires Sound(chains) && a != [] && OneRequest(a, id) && multiset(a) == multiset(b) && OneClosingKind(a)
    requires ByRequest(chains, id).None?
    requires forall m :: m in a ==> !FallsBack(chains, m)
    ensures var x, y := AdvanceAll(chains, a), AdvanceAll(chains, b);
      && |x| == |y| == |chains| + 1 && x[..|chains|] == y[..|chains|] == chains
      && x[|chains|].state == y[|chains|].state
      && (x[|chains|].closedAt.Some? <==> y[|chains|].closedAt.Some?)
  {
    SameElements(a, b, id);
    LifecycleConverges(chains, a, id);
    LifecycleConverges(chains, b, id);
    OutcomesAgree(a, b, AdvanceAll(chains, a)[|chains|], AdvanceAll(chains, b)[|chains|]);
  }
}
