/** The correlator as the program runs it: it sets fields on the event in hand
    and writes the store step by step. */
module Engine {
  import opened Types
  import opened Events
  import opened Correlate
  import opened Db
  import Chains

  // The media object of a payload. Its events share it, so a row found for one
  // is held for all.
  class MediaHandle {
    var mediaId: Option<nat>

    constructor ()
      ensures mediaId == None
    {
      mediaId := None;
    }
  }

  // An event on its way into the store: `body` is what the normalizer said.
  class CanonicalEvent {
    const body: Event
    const media: MediaHandle
    var userId: Option<string>
    var unmapped: bool
    var receivedAt: Option<Time>

    constructor (body: Event, media: MediaHandle)
      ensures this.body == body && this.media == media && Unresolved() && receivedAt == None
    {
      this.body, this.media := body, media;
      userId, unmapped, receivedAt := None, false, None;
    }

    predicate Unresolved()
      reads this
    {
      userId.None? && !unmapped
    }
  }

  class Correlator {
    const store: Store

    constructor (store: Store)
      ensures this.store == store
    {
      this.store := store;
    }

    // The media row id the event carries.
    function Held(e: CanonicalEvent): Option<nat>
      reads e.media
    {
      if e.body.media.Some? then e.media.mediaId else None
    }

    function Here(e: CanonicalEvent): Frame
      reads store, e.media
    {
      Frame(store.Snapshot(), e.media.mediaId)
    }

    // Its media, if it has any to look up, has been looked up.
    predicate Prepared(e: CanonicalEvent)
      reads store, e.media
    {
      Holds(store.media, e.media.mediaId, e.body) && (HasMedia(e.body) ==> e.media.mediaId.Some?)
    }

    // Its row is there and says what it says.
    ghost predicate Stored(e: CanonicalEvent)
      reads store, e
    {
      && e.receivedAt.Some? && e.body.key in store.events
      && Tells(store.config, store.Snapshot(), store.events[e.body.key], e.body, e.receivedAt.value)
    }

    // True exactly when the event was not stored before, and then the stored row
    // says what the event says; the store and the event's media id become what
    // `Applied` says.
    method Apply(e: CanonicalEvent, now: Time) returns (inserted: bool)
      requires e.Unresolved()
      modifies store`media, store`identities, store`events, store`chains, e, e.media
      ensures e.receivedAt == Some(if old(e.receivedAt).Some? then old(e.receivedAt).value else now)
      ensures Here(e) == Applied(store.config, old(Here(e)), e.body, e.receivedAt.value)
      ensures inserted == (e.body.key !in old(store.events))
      ensures inserted && old(Holds(store.media, e.media.mediaId, e.body)) ==> Stored(e)
      ensures e.body.user.Some? && e.body.user.value.identity.Some? ==>
        e.body.user.value.identity.value in store.identities
    {
      ghost var before := Here(e);
      FindMedia(e);
      ResolveUser(e);
      if e.receivedAt.None? { e.receivedAt := Some(now); }
      inserted := Insert(e);
      if IsLifecycle(e.body.kind) {
        AdvanceChain(e);
      }
      AppliedKnows(store.config, before, e.body, e.receivedAt.value);
      if inserted && Holds(before.tables.media, before.mediaId, e.body) {
        AppliedTells(store.config, before, e.body, e.receivedAt.value);
      }
    }

    method FindMedia(e: CanonicalEvent)
      modifies store`media, e.media
      ensures Here(e) == WithMedia(store.config, old(Here(e)), e.body)
    {
      if HasMedia(e.body) && e.media.mediaId.None? {
        var id := store.FindOrCreateMedia(e.body.media.value);
        e.media.mediaId := Some(id);
      }
    }

    method Insert(e: CanonicalEvent) returns (inserted: bool)
      requires e.receivedAt.Some? && Resolved(e)
      modifies store`events
      ensures Here(e) == Exec(store.config, old(Here(e)), InsertEvent(e.body, e.receivedAt.value))
      ensures inserted == (e.body.key !in old(store.events))
      ensures inserted && Prepared(e) ==> Stored(e)
    {
      var at := e.receivedAt.value;
      if Prepared(e) && e.body.key !in store.events { InsertTells(store.config, Here(e), e.body, at); }
      inserted := store.InsertEvent(e.body.key, EventRow(
        e.body.source, e.body.origin, e.body.kind, if e.body.occurred.Some? then e.body.occurred.value else at, at,
        Held(e), e.userId, e.body.requestId, e.body.partial, e.unmapped));
    }

    // The event carries the user the identity map gives it.
    predicate Resolved(e: CanonicalEvent)
      reads store, e
    {
      && e.userId == UserOf(store.config, store.identities, e.body.user)
      && e.unmapped == (HasIdentity(e.body) && e.userId.None?)
    }

    method ResolveUser(e: CanonicalEvent)
      requires e.Unresolved()
      modifies store`identities, e`userId, e`unmapped
      ensures Here(e) == WithUser(store.config, old(Here(e)), e.body) && Resolved(e)
    {
      if !HasIdentity(e.body) { return; }
      var id := e.body.user.value.identity.value;
      var hit := ResolveIdentity(store.config, store.identities, id);
      if hit.Some? {
        e.userId := hit;
        return;
      }
      var isNew := store.ObserveIdentity(id);
      e.unmapped := true;
      e.userId := None;
    }

    method AdvanceChain(e: CanonicalEvent)
      requires IsLifecycle(e.body.kind) && e.receivedAt.Some?
      requires Resolved(e)
      modifies store`chains
      ensures Here(e) == Exec(store.config, old(Here(e)), Call.AdvanceChain(e.body, e.receivedAt.value))
    {
      var state := Chains.StateOf(e.body.kind, e.body.partial);
      var occurred := if e.body.occurred.Some? then e.body.occurred.value else e.receivedAt.value;
      Advance(e.body.requestId, Held(e), e.userId, state, occurred);
    }

    method Advance(requestId: Option<RequestId>, mediaId: Option<nat>, userId: Option<string>, state: Chains.State,
                   occurred: Time)
      modifies store`chains
      ensures store.chains ==
        Chains.Advance(old(store.chains), Chains.Move(requestId, mediaId, userId, state, occurred))
    {
      var hit: Option<nat> := None;
      if requestId.Some? { hit := Chains.ByRequest(store.chains, requestId.value); }
      if hit.None? && mediaId.Some? { hit := Chains.OpenFor(store.chains, mediaId.value); }

      var closedAt := if Chains.Closing(state) then Some(occurred) else None;
      if hit.None? {
        store.CreateChain(Chains.Chain(mediaId, requestId, userId, state, occurred, closedAt));
        return;
      }
      var chain := store.chains[hit.value];
      if chain.closedAt.Some? { return; }
      if Chains.Rank(state) < Chains.Rank(chain.state) { return; }
      store.UpdateChain(hit.value, state, closedAt, if chain.media.None? then mediaId else None,
                        if chain.requestedBy.None? then userId else None);
    }
  }
}
