/** The weekly digest run, over the store. */
module DigestJob {
  import opened Types
  import opened Events
  import opened Correlate
  import opened Db
  import opened Pipeline
  import Digest
  import Silence = KillSwitch
  import Q = WorkQueue

  function Start(ledger: map<NoteKey, Note>, cursor: Option<Digest.Window>): Digest.State {
    Digest.State(ledger, cursor, [], [])
  }

  // Enqueues the digest of the period since the last one; true when it made a row.
  method RunDigest(store: Store, kill: KillSwitch, channel: Option<string>, now: Time) returns (created: bool)
    requires kill.store == store
    modifies store`ledger, store`digestCursor
    ensures var call := Digest.Call(channel, Silence.Engaged(kill.envOverride, store.audit), now, false);
      var d := Digest.RunDigest(Start(old(store.ledger), old(store.digestCursor)), call);
      && store.ledger == d.ledger && store.digestCursor == d.cursor
      && created == (|d.ledger| > |old(store.ledger)|)
    ensures
      var since := if old(store.digestCursor).Some? then old(store.digestCursor).value.until else now - 7 * DAY;
      var due := channel !in {None, Some("")} && now - since >= HOUR;
      var recorded := store.digestCursor == Some(Digest.Window(since, now));
      && (!due ==> !created && store.digestCursor == old(store.digestCursor) && store.ledger == old(store.ledger))
      && (due && Silence.Engaged(kill.envOverride, store.audit) ==>
            !created && recorded && store.ledger == old(store.ledger))
      && (due && !Silence.Engaged(kill.envOverride, store.audit) ==>
            var key := NoteKey(Digest.DigestKey(Digest.Window(since, now)), channel.value);
            && created == (key !in old(store.ledger)) && key in store.ledger
            && (if created then recorded && store.ledger == old(store.ledger)[key := Q.Row((), Q.Pending, 0, now)]
                else store.digestCursor == old(store.digestCursor) && store.ledger == old(store.ledger)))
  {
    if !TruthyText(channel) { return false; }
    var since := if store.digestCursor.Some? then store.digestCursor.value.until else now - Digest.DEFAULT_PERIOD;
    if now - since < Digest.MIN_PERIOD { return false; }
    var window := Digest.Window(since, now);
    var engaged := kill.Engaged();
    if engaged {
      store.digestCursor := Some(window);
      return false;
    }
    created := store.EnqueueNotification(NoteKey(Digest.DigestKey(window), channel.value), now);
    if created {
      store.digestCursor := Some(window);
    }
  }
}
