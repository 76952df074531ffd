/** From the connection to the application: the worker that fills a bot's stream, and the replay loop
    that empties it. */
module EndToEnd {
  import opened Basics
  import opened Updates
  import opened RedisStream
  import opened DeliveryTrace
  import opened WebhookDelivery
  import Guarantees = DeliveryGuarantees
  import Pipeline = UpdatePipeline

  /** The stream the loop reads is the one the worker appended to, each update with its id. */
  ghost predicate AppendedBy(log: seq<Entry>, stream: seq<Pipeline.Persisted>) {
    && |log| == |stream|
    && forall k | 0 <= k < |log| ::
         log[k].uid == stream[k].uid && log[k].update == Some(stream[k].update.(updateId := stream[k].uid))
  }

  /** What is assumed of a stream holds of the worker's: its update_ids grow with its stream IDs. */
  lemma WorkersStreamAscends(w: Pipeline.UpdateWorker, log: seq<Entry>)
    requires w.Valid() && AppendedBy(log, w.stream)
    requires forall i | 0 <= i < |log| :: log[i].id > 0
    requires forall i, j | 0 <= i < j < |log| :: log[i].id < log[j].id
    ensures Ascending(log)
  {
    Pipeline.StreamInArrivalOrder(w);
  }

  /** Of two accepted updates of one conversation, the one accepted first had arrived first: x and y are
      their places among all the updates the worker had to deal with. */
  lemma AcceptedInArrivalOrder(w: Pipeline.UpdateWorker, d: WebhookDelivery, i: nat, j: nat) returns (x: nat, y: nat)
    requires w.Valid() && d.Valid() && AppendedBy(d.store.persisted, w.stream)
    requires i < j < |d.trace| && d.trace[i].Accepted? && d.trace[j].Accepted?
    ensures ArrivedAt(w, d, d.trace[i].id, x) && ArrivedAt(w, d, d.trace[j].id, y)
    ensures var work := Pipeline.Work(w.taken); SameConversation(work[x], work[y]) ==> x < y
  {
    hide SameConversation;
    var log, at := d.store.persisted, Pipeline.KeptAt(w.fates);
    var a, b := Guarantees.AcceptedInPersistedOrder(d, i, j);
    Pipeline.StreamInArrivalOrder(w);
    x, y := at[a], at[b];
    SameConversationStays(w.stream[a].update, w.stream[a].uid, w.stream[b].update, w.stream[b].uid);
  }

  /** The stream entry of that ID is the one made of the update that arrived at place x. */
  ghost predicate ArrivedAt(w: Pipeline.UpdateWorker, d: WebhookDelivery, id: StreamId, x: nat)
    reads w, d, d.store
  {
    x < |Pipeline.Work(w.taken)| &&
    exists a: nat :: Guarantees.PersistedAt(d.store.persisted, a, id) &&
      a < |Pipeline.KeptAt(w.fates)| && Pipeline.KeptAt(w.fates)[a] == x &&
      d.store.persisted[a].update.value == Pipeline.Work(w.taken)[x].(updateId := d.store.persisted[a].uid)
  }

  lemma SameConversationStays(u: Update, uid: int, v: Update, vid: int)
    ensures SameConversation(u.(updateId := uid), v.(updateId := vid)) <==> SameConversation(u, v)
  {
  }
}
