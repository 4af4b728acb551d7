/**
 * The application's shared state: the loading flag, the message modal and
 * the mirrored list of purchase requests, with the three callbacks of the
 * purchase-request listener and the message helper that change it.
 *
 * The document store is reduced to what the callbacks receive: a snapshot
 * is the sequence of its documents, each an identity plus a field payload.
 */
module Stores {
  import opened Options
  import opened Types

  /**
   * The field payload of a stored document. The store assigns a document's
   * identity separately; a payload may still carry an `id` field of its own.
   */
  datatype Payload = Payload(
    id: Option<string>,
    proposedWh: string,
    skus: seq<Sku>,
    status: string,
    initiatedBy: string,
    history: seq<HistoryLog>,
    createdAt: int)

  /** A document of a snapshot: its store-assigned identity and its payload. */
  datatype Doc = Doc(docId: string, payload: Payload)

  /**
   * The record a document maps to: `{ id: doc.id, ...doc.data() }`. The
   * spread comes after the identity, so a payload `id` overrides it.
   */
  function ToRequest(d: Doc): (r: PurchaseRequest)
    ensures r.id == if d.payload.id.Some? then d.payload.id.value else d.docId
    ensures r.proposedWh == d.payload.proposedWh && r.skus == d.payload.skus
    ensures r.status == d.payload.status && r.initiatedBy == d.payload.initiatedBy
    ensures r.history == d.payload.history && r.createdAt == d.payload.createdAt
  {
    var p := d.payload;
    var id := match p.id case Some(own) => own case None => d.docId;
    PurchaseRequest(id, p.proposedWh, p.skus, p.status, p.initiatedBy, p.history, p.createdAt)
  }

  /** The document a record is stored as: its id as the identity, no `id` in the payload. */
  function ToDoc(r: PurchaseRequest): Doc {
    Doc(r.id, Payload(None, r.proposedWh, r.skus, r.status, r.initiatedBy, r.history, r.createdAt))
  }

  /** Storing a record and reading it back yields the same record. */
  lemma ToRequestToDoc(r: PurchaseRequest)
    ensures ToRequest(ToDoc(r)) == r
  {
  }

  /**
   * A record keeps its document's identity exactly when the payload has no
   * `id` of its own or repeats the identity.
   */
  lemma IdentityKept(d: Doc)
    ensures ToRequest(d).id == d.docId <==> d.payload.id in {None, Some(d.docId)}
  {
  }

  /**
   * The records of a snapshot, built by appending one per document: the list
   * has one entry per document, the i-th being the i-th document's record.
   */
  function Records(docs: seq<Doc>): (r: seq<PurchaseRequest>)
    ensures |r| == |docs|
    ensures forall i :: 0 <= i < |docs| ==> r[i] == ToRequest(docs[i])
    decreases |docs|
  {
    if docs == [] then [] else Records(docs[..|docs| - 1]) + [ToRequest(docs[|docs| - 1])]
  }

  /** When no payload carries an `id`, the record ids are the document identities, in order. */
  lemma RecordIdsAreDocIds(docs: seq<Doc>)
    requires forall i :: 0 <= i < |docs| ==> docs[i].payload.id.None?
    ensures |Records(docs)| == |docs|
    ensures forall i :: 0 <= i < |docs| ==> Records(docs)[i].id == docs[i].docId
  {
  }

  /** Publishing a list of records as documents and mirroring them back gives the same list. */
  lemma {:induction false} RecordsOfStoredRecords(rs: seq<PurchaseRequest>)
    ensures Records(seq(|rs|, i requires 0 <= i < |rs| => ToDoc(rs[i]))) == rs
  {
    var docs := seq(|rs|, i requires 0 <= i < |rs| => ToDoc(rs[i]));
    assert forall i :: 0 <= i < |rs| ==> Records(docs)[i] == ToRequest(ToDoc(rs[i])) == rs[i];
  }

  /** The fixed text of the notification raised when the listener fails. */
  const DataErrorTitle: string := "Data Error"
  const DataErrorMessage: string := "Could not load purchase requests from the database."

  /** The value of the three stores together. */
  datatype StoreState = StoreState(isLoading: bool, modal: ModalState, purchaseRequests: seq<PurchaseRequest>)

  /** The state before anything has run: loading, a hidden empty modal, no requests. */
  function Initial(): (s: StoreState)
    ensures s.isLoading
    ensures !s.modal.show && s.modal.title == "" && s.modal.message == ""
    ensures |s.purchaseRequests| == 0
  {
    StoreState(true, ModalState(false, "", ""), [])
  }

  /** What can happen to the stores: the listener starts, a snapshot or an error arrives, a message is shown. */
  datatype Event =
    | Listen
    | Snapshot(docs: seq<Doc>)
    | Error
    | ShowMessage(title: string, message: string)

  /** The modal after a message is shown; the modal is overwritten whatever it held. */
  function Notify(s: StoreState, title: string, message: string): StoreState {
    s.(modal := ModalState(true, title, message))
  }

  /**
   * One event applied to the stores. Only a snapshot writes the list, which
   * it replaces by one record per document; only an error or a message
   * writes the modal; a message leaves the loading flag alone.
   */
  function Step(s: StoreState, e: Event): (r: StoreState)
    ensures e.Snapshot? ==> |r.purchaseRequests| == |e.docs| && !r.isLoading
    ensures !e.Snapshot? ==> r.purchaseRequests == s.purchaseRequests
    ensures e.Listen? || e.Snapshot? ==> r.modal == s.modal
    ensures e.Listen? ==> r.isLoading
    ensures e.Error? ==> r.modal == ModalState(true, "Data Error", "Could not load purchase requests from the database.") && !r.isLoading
    ensures e.ShowMessage? ==> r.modal == ModalState(true, e.title, e.message) && r.isLoading == s.isLoading
  {
    match e
    case Listen => s.(isLoading := true)
    case Snapshot(docs) => s.(purchaseRequests := Records(docs), isLoading := false)
    case Error => Notify(s, DataErrorTitle, DataErrorMessage).(isLoading := false)
    case ShowMessage(title, message) => Notify(s, title, message)
  }

  /**
   * A sequence of events applied in order. Without a snapshot the list is
   * what it was; without an error or a message the modal is what it was.
   */
  function Run(s: StoreState, events: seq<Event>): (r: StoreState)
    ensures (forall i :: 0 <= i < |events| ==> !events[i].Snapshot?) ==> r.purchaseRequests == s.purchaseRequests
    ensures (forall i :: 0 <= i < |events| ==> events[i].Listen? || events[i].Snapshot?) ==> r.modal == s.modal
    decreases |events|
  {
    if events == [] then s else Step(Run(s, events[..|events| - 1]), events[|events| - 1])
  }

  // Independent descriptions of each store after a run: each depends only on
  // the latest event of the kinds that write it.

  /** The documents of the latest snapshot, if any. */
  function LatestBatch(events: seq<Event>): Option<seq<Doc>>
    decreases |events|
  {
    if events == [] then None
    else match events[|events| - 1]
      case Snapshot(docs) => Some(docs)
      case _ => LatestBatch(events[..|events| - 1])
  }

  /** The modal raised by the latest message or error, if any. */
  function LatestNotice(events: seq<Event>): Option<ModalState>
    decreases |events|
  {
    if events == [] then None
    else match events[|events| - 1]
      case ShowMessage(title, message) => Some(ModalState(true, title, message))
      case Error => Some(ModalState(true, DataErrorTitle, DataErrorMessage))
      case _ => LatestNotice(events[..|events| - 1])
  }

  /** The loading value set by the latest start, snapshot or error, if any. */
  function LatestLoading(events: seq<Event>): Option<bool>
    decreases |events|
  {
    if events == [] then None
    else match events[|events| - 1]
      case Listen => Some(true)
      case Snapshot(_) => Some(false)
      case Error => Some(false)
      case _ => LatestLoading(events[..|events| - 1])
  }

  /**
   * After any run, the request list is exactly the records of the latest
   * snapshot (nothing from earlier batches survives, errors keep it), the
   * modal is the latest notice, and loading is the latest start, snapshot or
   * error; each store keeps its initial value while no event writes it.
   */
  lemma {:induction false} RunIsLatestWrites(s: StoreState, events: seq<Event>)
    ensures Run(s, events).purchaseRequests ==
      match LatestBatch(events) case Some(docs) => Records(docs) case None => s.purchaseRequests
    ensures Run(s, events).modal == LatestNotice(events).GetOr(s.modal)
    ensures Run(s, events).isLoading == LatestLoading(events).GetOr(s.isLoading)
  {
    if events != [] {
      RunIsLatestWrites(s, events[..|events| - 1]);
    }
  }

  /** A batch replaces the list: after it, the list has one record per document, in document order. */
  lemma SnapshotReplaces(s: StoreState, events: seq<Event>, docs: seq<Doc>)
    ensures var t := Run(s, events + [Snapshot(docs)]);
      && |t.purchaseRequests| == |docs|
      && (forall i :: 0 <= i < |docs| ==> t.purchaseRequests[i] == ToRequest(docs[i]))
      && !t.isLoading
      && t.modal == Run(s, events).modal
  {
    assert (events + [Snapshot(docs)])[..|events|] == events;
  }

  /** An error keeps the list, raises exactly the data-error modal and clears loading. */
  lemma ErrorKeepsRequests(s: StoreState, events: seq<Event>)
    ensures var t := Run(s, events + [Error]);
      && t.purchaseRequests == Run(s, events).purchaseRequests
      && t.modal == ModalState(true, "Data Error", "Could not load purchase requests from the database.")
      && !t.isLoading
  {
    assert (events + [Error])[..|events|] == events;
  }

  /** Of two messages the last one wins, and neither touches the list or the loading flag. */
  lemma LastMessageWins(s: StoreState, t1: string, m1: string, t2: string, m2: string)
    ensures var t := Run(s, [ShowMessage(t1, m1), ShowMessage(t2, m2)]);
      && t.modal == ModalState(true, t2, m2)
      && t.purchaseRequests == s.purchaseRequests
      && t.isLoading == s.isLoading
  {
    assert [ShowMessage(t1, m1), ShowMessage(t2, m2)][..1] == [ShowMessage(t1, m1)];
    assert [ShowMessage(t1, m1)][..0] == [];
    assert Run(s, [ShowMessage(t1, m1)]) == Step(s, ShowMessage(t1, m1));
  }

  /** Starting the listener again after a batch raises the loading flag again. */
  lemma LoadingRisesOnRestart(docs: seq<Doc>)
    ensures Run(Initial(), [Listen, Snapshot(docs), Listen]).isLoading
  {
    RunIsLatestWrites(Initial(), [Listen, Snapshot(docs), Listen]);
  }

  /** The three stores as mutable state. */
  class Store {
    var isLoading: bool
    var modal: ModalState
    var purchaseRequests: seq<PurchaseRequest>

    function State(): StoreState
      reads this
    {
      StoreState(isLoading, modal, purchaseRequests)
    }

    /** The stores as the module creates them. */
    constructor ()
      ensures State() == Initial()
      ensures isLoading && modal == ModalState(false, "", "") && purchaseRequests == []
    {
      isLoading := true;
      modal := ModalState(false, "", "");
      purchaseRequests := [];
    }

    /** Starting the listener: loading is raised before the subscription; nothing else changes. */
    method ListenToPurchaseRequests()
      modifies this`isLoading
      ensures isLoading
      ensures State() == Step(old(State()), Listen)
    {
      isLoading := true;
    }

    /** The snapshot callback: rebuild the list from the documents, then clear loading. */
    method OnSnapshot(docs: seq<Doc>)
      modifies this`purchaseRequests, this`isLoading
      ensures |purchaseRequests| == |docs|
      ensures forall i :: 0 <= i < |docs| ==> purchaseRequests[i] == ToRequest(docs[i])
      ensures !isLoading && modal == old(modal)
      ensures State() == Step(old(State()), Snapshot(docs))
    {
      var requests: seq<PurchaseRequest> := [];
      for k := 0 to |docs|
        invariant requests == Records(docs[..k])
      {
        assert docs[..k + 1][..k] == docs[..k];
        requests := requests + [ToRequest(docs[k])];
      }
      assert docs[..|docs|] == docs;
      purchaseRequests := requests;
      isLoading := false;
    }

    /** The error callback: keep the list, show the data-error message, clear loading. */
    method OnError()
      modifies this`modal, this`isLoading
      ensures modal == ModalState(true, "Data Error", "Could not load purchase requests from the database.")
      ensures !isLoading && purchaseRequests == old(purchaseRequests)
      ensures State() == Step(old(State()), Error)
    {
      ShowMessage(DataErrorTitle, DataErrorMessage);
      isLoading := false;
    }

    /** Show a message: the modal is overwritten; the list and loading flag are untouched. */
    method ShowMessage(title: string, message: string)
      modifies this`modal
      ensures modal == ModalState(true, title, message)
      ensures State() == Step(old(State()), Event.ShowMessage(title, message))
    {
      modal := ModalState(true, title, message);
    }
  }
}
