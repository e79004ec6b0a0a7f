/** Where the lifecycle of one request ends, in terms of the events seen. */
module Lifecycle {
  import opened Types
  import opened Events
  import opened Correlate
  import Chains

  // A lifecycle event as the correlator meets it, with the media id it carries.
  datatype Report = Report(event: Event, mediaId: Option<nat>, receivedAt: Time)

  // `_advance_chain` for one event after another.
  function Reported(config: Config, t: Tables, reports: seq<Report>): Tables {
    if reports == [] then t
    else
      var r := reports[|reports| - 1];
      Exec(config, Frame(Reported(config, t, reports[..|reports| - 1]), r.mediaId),
           AdvanceChain(r.event, r.receivedAt)).tables
  }

  function TimeOf(r: Report): Time { if r.event.occurred.Some? then r.event.occurred.value else r.receivedAt }

  predicate Seen(reports: seq<Report>, kind: EventType) {
    exists i :: 0 <= i < |reports| && reports[i].event.kind == kind
  }

  predicate SeenAvailable(reports: seq<Report>, partial: bool) {
    exists i :: 0 <= i < |reports| && reports[i].event.kind == RequestAvailable && reports[i].event.partial == partial
  }

  // A decline or a full availability.
  predicate Ends(e: Event) { e.kind == RequestDeclined || (e.kind == RequestAvailable && !e.partial) }

  predicate FirstEnd(reports: seq<Report>, k: nat) {
    k < |reports| && Ends(reports[k].event) && forall j :: 0 <= j < k ==> !Ends(reports[j].event)
  }

  // All of one request, whose chain is not there yet, and the first does not find
  // an open chain of its media.
  predicate Starts(t: Tables, reports: seq<Report>, id: RequestId) {
    && reports != []
    && (forall i :: 0 <= i < |reports| ==> IsLifecycle(reports[i].event.kind) && reports[i].event.requestId == Some(id))
    && (forall i :: 0 <= i < |t.chains| ==> t.chains[i].requestId != Some(id))
    && (reports[0].event.media.Some? && reports[0].mediaId.Some? ==>
          forall i :: 0 <= i < |t.chains| ==> t.chains[i].media != reports[0].mediaId || t.chains[i].closedAt.Some?)
  }

  function MovesOf(config: Config, t: Tables, reports: seq<Report>): (moves: seq<Chains.Move>)
    requires forall i :: 0 <= i < |reports| ==> IsLifecycle(reports[i].event.kind)
    ensures |moves| == |reports|
    ensures forall i :: 0 <= i < |reports| ==>
      moves[i] == MoveOf(config, Frame(t, reports[i].mediaId), reports[i].event, reports[i].receivedAt)
  {
    seq(|reports|, i requires 0 <= i < |reports| =>
      MoveOf(config, Frame(t, reports[i].mediaId), reports[i].event, reports[i].receivedAt))
  }

  lemma MovesAppend(config: Config, t: Tables, reports: seq<Report>)
    requires reports != [] && forall i :: 0 <= i < |reports| ==> IsLifecycle(reports[i].event.kind)
    ensures var n := |reports| - 1;
      MovesOf(config, t, reports) == MovesOf(config, t, reports[..n]) +
        [MoveOf(config, Frame(t, reports[n].mediaId), reports[n].event, reports[n].receivedAt)]
  {
  }

  lemma {:induction false} ReportsAreMoves(config: Config, t: Tables, reports: seq<Report>)
    requires forall i :: 0 <= i < |reports| ==> IsLifecycle(reports[i].event.kind)
    ensures Reported(config, t, reports) == t.(chains := Chains.AdvanceAll(t.chains, MovesOf(config, t, reports)))
  {
    if reports != [] {
      var n := |reports| - 1;
      var r := reports[n];
      ReportsAreMoves(config, t, reports[..n]);
      MovesAppend(config, t, reports);
      Chains.AdvanceAppend(t.chains, MovesOf(config, t, reports[..n]),
        MoveOf(config, Frame(t, r.mediaId), r.event, r.receivedAt));
    }
  }

  ghost predicate EndsAs(reports: seq<Report>, c: Chains.Chain) { OpenAs(reports, c.state) && ClosedAs(reports, c) }

  predicate OpenAs(reports: seq<Report>, state: Chains.State) {
    && (state == Chains.Requested <==>
          forall i :: 0 <= i < |reports| ==> reports[i].event.kind == RequestCreated)
    && (state == Chains.Approved <==>
          Seen(reports, RequestApproved) && !Seen(reports, RequestAvailable) && !Seen(reports, RequestDeclined))
    && (state == Chains.PartiallyAvailable <==>
          SeenAvailable(reports, true) && !SeenAvailable(reports, false) && !Seen(reports, RequestDeclined))
  }

  ghost predicate ClosedAs(reports: seq<Report>, c: Chains.Chain) {
    && (c.closedAt.Some? <==> exists k: nat :: FirstEnd(reports, k))
    && (forall k: nat :: FirstEnd(reports, k) ==>
          && c.closedAt == Some(TimeOf(reports[k]))
          && c.state == if reports[k].event.kind == RequestDeclined then Chains.Declined else Chains.Available)
  }

  predicate Matches(moves: seq<Chains.Move>, reports: seq<Report>) {
    && |moves| == |reports|
    && forall i :: 0 <= i < |moves| ==>
         && IsLifecycle(reports[i].event.kind) && moves[i].occurred == TimeOf(reports[i])
         && moves[i].state == Chains.StateOf(reports[i].event.kind, reports[i].event.partial)
  }

  lemma HighestIsOpen(moves: seq<Chains.Move>, reports: seq<Report>, state: Chains.State)
    requires Matches(moves, reports) && Chains.Highest(moves, state)
    ensures OpenAs(reports, state)
  {
    var w :| 0 <= w < |moves| && moves[w].state == state;
    assert IsLifecycle(reports[w].event.kind);
    forall i | 0 <= i < |reports|
      ensures Chains.Rank(Chains.StateOf(reports[i].event.kind, reports[i].event.partial)) <= Chains.Rank(state)
    {
      assert Chains.Rank(moves[i].state) <= Chains.Rank(state);
    }
  }

  lemma OutcomeIsClosed(moves: seq<Chains.Move>, reports: seq<Report>, c: Chains.Chain)
    requires Matches(moves, reports) && Chains.Outcome(moves, c)
    ensures ClosedAs(reports, c)
  {
    var first := Chains.FirstClosing(moves);
    forall i | 0 <= i < |reports| ensures Chains.Closing(moves[i].state) <==> Ends(reports[i].event) { }
    if first.Some? { assert FirstEnd(reports, first.value); }
  }

  function MediaOf(r: Report): Option<nat> { if r.event.media.Some? then r.mediaId else None }

  // Nothing before it ends the request or is further on.
  predicate InOrder(reports: seq<Report>, i: nat)
    requires i < |reports| && forall j :: 0 <= j < |reports| ==> IsLifecycle(reports[j].event.kind)
  {
    forall j :: 0 <= j < i ==> !Ends(reports[j].event) && Stage(reports[j].event) <= Stage(reports[i].event)
  }

  function Stage(e: Event): nat
    requires IsLifecycle(e.kind)
  {
    Chains.Rank(Chains.StateOf(e.kind, e.partial))
  }

  // Whose the chain is, and of which media: what the first event told if it told,
  // and told as soon as an event in order tells.
  ghost predicate BelongsTo(config: Config, t: Tables, reports: seq<Report>, c: Chains.Chain)
    requires reports != [] && forall i :: 0 <= i < |reports| ==> IsLifecycle(reports[i].event.kind)
  {
    && (c.media.Some? ==> exists i :: 0 <= i < |reports| && MediaOf(reports[i]) == c.media)
    && (MediaOf(reports[0]).Some? ==> c.media == MediaOf(reports[0]))
    && (forall i :: 0 <= i < |reports| && InOrder(reports, i) && MediaOf(reports[i]).Some? ==> c.media.Some?)
    && (c.requestedBy.Some? ==>
          exists i :: 0 <= i < |reports| && IsMember(config, t.identities, reports[i].event.user, c.requestedBy.value))
    && (forall m :: IsMember(config, t.identities, reports[0].event.user, m) ==> c.requestedBy == Some(m))
    && (forall i :: 0 <= i < |reports| && InOrder(reports, i) && c.requestedBy.None? ==>
          forall m :: !IsMember(config, t.identities, reports[i].event.user, m))
  }

  lemma FilledBelongs(config: Config, t: Tables, reports: seq<Report>, c: Chains.Chain)
    requires reports != [] && forall i :: 0 <= i < |reports| ==> IsLifecycle(reports[i].event.kind)
    requires Chains.Filled(MovesOf(config, t, reports), c)
    ensures BelongsTo(config, t, reports, c)
  {
    var moves := MovesOf(config, t, reports);
    forall i | 0 <= i < |reports|
      ensures moves[i].media == MediaOf(reports[i]) && (InOrder(reports, i) ==> Chains.Timely(moves, i))
      ensures forall m :: moves[i].user == Some(m) <==> IsMember(config, t.identities, reports[i].event.user, m)
    {
    }
    if c.requestedBy.Some? {
      var i :| 0 <= i < |moves| && moves[i].user == c.requestedBy;
      assert IsMember(config, t.identities, reports[i].event.user, c.requestedBy.value);
    }
  }

  // The chain of the request, once its events are applied in any order and with
  // any repetition: requested after creations only, approved once approved,
  // partially available once that, and closed for good by the first decline or
  // full availability, at the time it happened.
  lemma LifecycleEnds(config: Config, t: Tables, reports: seq<Report>, id: RequestId)
    requires Chains.Sound(t.chains) && Starts(t, reports, id)
    ensures var u := Reported(config, t, reports);
      && u == t.(chains := u.chains) && |u.chains| == |t.chains| + 1 && u.chains[..|t.chains|] == t.chains
      && var c := u.chains[|t.chains|];
         && c.requestId == Some(id) && c.openedAt == TimeOf(reports[0]) && EndsAs(reports, c)
         && BelongsTo(config, t, reports, c)
  {
    var moves := MovesOf(config, t, reports);
    ReportsAreMoves(config, t, reports);
    Chains.LifecycleConverges(t.chains, moves, id);
    HighestIsOpen(moves, reports, Chains.AdvanceAll(t.chains, moves)[|t.chains|].state);
    OutcomeIsClosed(moves, reports, Chains.AdvanceAll(t.chains, moves)[|t.chains|]);
    Chains.ChainIsFilled(t.chains, moves, id);
    FilledBelongs(config, t, reports, Chains.AdvanceAll(t.chains, moves)[|t.chains|]);
  }
}
