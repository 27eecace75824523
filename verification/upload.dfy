/**
 * One callback of `uploadFiles` in app.js: the chunked-upload collaborator
 * reports a part, the callback announces the transaction length, finds or
 * creates the session's Directory, and for a finished part makes the
 * directory, stores the file, creates a file shortcut, and completes one
 * item of the transaction, notifying when that closes it.
 *
 * The completion waits for `make` and for the write stream, so a callback
 * is two steps, `Announce` and `Finish`, between which other callbacks run.
 *
 * Accounts and users (accounts.js, users.js) are not part of this model:
 * the owner id they resolve is an input, as are the generated ids, the
 * clock, what `fs.mkdir` reports and whether the write stream finished.
 */
module Upload {
  import opened Env
  import opened DirectoryRecord
  import Transactions
  import DirectoryStore

  /** The status the chunked-upload collaborator reports for a part. */
  datatype PartStatus = Done | PartlyDone | OtherStatus(name: string)

  /** What the request and the collaborator supply to one callback. */
  datatype Part = Part(
    status: PartStatus,
    sid: Option<string>,
    tid: Option<string>,
    tlen: Option<int>,
    filename: string,
    originalFilename: Option<string>,
    totalSize: Option<int>)

  /**
   * What the world answers during one callback: the ids `generateId` would
   * return for a missing session or transaction id, the id and clock a new
   * Directory would take, the owner user id, the answer of `fs.mkdir`, and
   * whether the write stream reached `'finish'`.
   */
  datatype World = World(
    newSid: string,
    newTid: string,
    newDirectory: DirectoryStore.Fresh,
    owner: Option<string>,
    mkdir: MkdirResult,
    streamFinished: bool)

  /** The process state the callbacks share. */
  datatype State = State(transactions: Transactions.TxnMap, directories: DirectoryStore.Store)

  /** The props of the file shortcut created for a stored part. */
  datatype FileShortcutProps = FileShortcutProps(
    originalname: Option<string>,
    owneruserid: Option<string>,
    destination: string,
    contentlength: Option<int>,
    sessionid: string)

  /**
   * The effect of one callback: the new state, the status sent (if any), the
   * file shortcut created (if any), and whether completion was reported, in
   * which case the upload notification is sent.
   */
  datatype Effect = Effect(state: State, response: Option<int>, shortcut: Option<FileShortcutProps>, closed: bool)

  /** `req.body.sid || generateId()`. */
  function SessionIdOf(p: Part, w: World): (sid: string)
    ensures Truthy(p.sid) ==> sid == p.sid.value
    ensures !Truthy(p.sid) ==> sid == w.newSid
  {
    OrElse(p.sid, w.newSid)
  }

  /** `req.body.tid || generateId()`. */
  function TransactionIdOf(p: Part, w: World): (tid: string)
    ensures Truthy(p.tid) ==> tid == p.tid.value
    ensures !Truthy(p.tid) ==> tid == w.newTid
  {
    OrElse(p.tid, w.newTid)
  }

  /** `req.body.tlen || 1`: a missing or zero length counts as a single part, so the announced length is never 0. */
  function TransactionLengthOf(p: Part): (n: int)
    ensures n != 0
    ensures p.tlen.Some? && p.tlen.value != 0 ==> n == p.tlen.value
    ensures p.tlen.None? || p.tlen == Some(0) ==> n == 1
  {
    if p.tlen.Some? && p.tlen.value != 0 then p.tlen.value else 1
  }

  /** The part was stored: it is done, its directory exists, and its write stream finished. */
  predicate Stored(p: Part, w: World) {
    p.status == Done && Make(w.mkdir).Made? && w.streamFinished
  }

  /** The length announcement every callback makes, as a call on the counter. */
  function AnnounceOp(p: Part, w: World): Transactions.Op {
    Transactions.SetOp(Some(TransactionIdOf(p, w)), Some(TransactionLengthOf(p)))
  }

  /** The map after the length announcement every callback makes. */
  function Announced(st: State, p: Part, w: World): Transactions.TxnMap {
    Transactions.SetLength(st.transactions, Some(TransactionIdOf(p, w)), Some(TransactionLengthOf(p)))
  }

  /** A stored part whose write stream has yet to report `'finish'`: the transaction it completes and the shortcut it creates. */
  datatype Pending = Pending(tid: string, shortcut: FileShortcutProps)

  /** What the synchronous half of a callback leaves behind: the state, any status already sent, and the completion still to come. */
  datatype Started = Started(state: State, response: Option<int>, pending: Option<Pending>)

  /**
   * The synchronous half of an `uploadFiles` callback, up to the moment it
   * hands over to `directory.make`: it announces the transaction length and
   * looks the session's Directory up, creating it if needed. A failed
   * `make` answers 500; a part in flight answers 200; a part that will be
   * stored leaves a pending completion, which runs only when its write
   * stream finishes, after any number of other callbacks.
   */
  function Announce(st: State, p: Part, w: World, host: Host): (a: Started)
    requires DirectoryStore.Wellformed(st.directories)
    ensures DirectoryStore.Wellformed(a.state.directories)
    ensures a.state.transactions == Transactions.Apply(st.transactions, AnnounceOp(p, w)).state
    ensures var tid := TransactionIdOf(p, w);
            && tid in a.state.transactions
            && a.state.transactions[tid].length == TransactionLengthOf(p)
            && a.state.transactions[tid].length != 0
    ensures a.pending.Some? <==> Stored(p, w)
    ensures a.pending.Some? ==>
              && a.pending.value.tid == TransactionIdOf(p, w)
              && a.pending.value.shortcut.sessionid == SessionIdOf(p, w)
              && a.pending.value.shortcut.owneruserid == w.owner
              && a.pending.value.shortcut.originalname == p.originalFilename
    ensures a.response == Some(200) <==> p.status == PartlyDone
    ensures a.response == Some(500) <==> p.status == Done && Make(w.mkdir).MakeFailed?
    ensures a.response.None? <==> p.status.OtherStatus? || (p.status == Done && Make(w.mkdir).Made?)
  {
    var sid := SessionIdOf(p, w);
    var tid := TransactionIdOf(p, w);
    var transactions := Announced(st, p, w);
    var props := NoFields.(owneruserid := w.owner, sessionid := Some(sid), usagetype := Some("mail"));
    var found := DirectoryStore.GetBySessionId(st.directories, sid, Some(props), w.newDirectory, host);
    var directory := found.directory.value;
    var after := State(transactions, found.store);
    match p.status
    case Done =>
      var upath := host.join(directory.physicalpath.value, p.filename);
      if Make(w.mkdir).MakeFailed? then Started(after, Some(500), None)
      else if !w.streamFinished then Started(after, None, None)
      else Started(after, None, Some(Pending(tid, FileShortcutProps(p.originalFilename, w.owner, upath, p.totalSize, sid))))
    case PartlyDone => Started(after, Some(200), None)
    case OtherStatus(_) => Started(after, None, None)
  }

  /**
   * The `'finish'` handler of a stored part: it creates the file shortcut,
   * answers 200 and completes one item of the transaction as the counter
   * stands at that moment, which reports closure for an id whose record is
   * already gone.
   */
  function Finish(st: State, q: Pending): (e: Effect)
    ensures e.state.directories == st.directories
    ensures e.response == Some(200) && e.shortcut == Some(q.shortcut)
    ensures Transactions.Apply(st.transactions, Transactions.CompleteOp(Some(q.tid)))
            == Transactions.Step(e.state.transactions, Some(e.closed))
    ensures e.closed <==> Transactions.Remaining(st.transactions, q.tid) <= 1
    ensures e.closed ==> q.tid !in e.state.transactions
    ensures !e.closed ==>
              && q.tid in st.transactions && q.tid in e.state.transactions
              && e.state.transactions[q.tid].remains == st.transactions[q.tid].remains - 1
    ensures e.state.transactions - {q.tid} == st.transactions - {q.tid}
  {
    var completed := Transactions.Complete(st.transactions, Some(q.tid));
    Effect(State(completed.state, st.directories), Some(200), Some(q.shortcut), completed.value.value)
  }

  /**
   * One `uploadFiles` callback whose write stream finishes before any other
   * callback runs: the synchronous half followed at once by its completion.
   * Every callback announces the transaction length and looks the session's
   * Directory up (creating it if needed); only a stored part completes a
   * transaction item, exactly once; a part still in flight is acknowledged
   * without touching the counter.
   */
  function OnPart(st: State, p: Part, w: World, host: Host): (e: Effect)
    requires DirectoryStore.Wellformed(st.directories)
    ensures DirectoryStore.Wellformed(e.state.directories)
    ensures !Stored(p, w) ==> e.state.transactions == Announced(st, p, w) && !e.closed
    ensures Stored(p, w) ==>
              var c := Transactions.Complete(Announced(st, p, w), Some(TransactionIdOf(p, w)));
              e.state.transactions == c.state && e.closed == c.value.value
    ensures e.shortcut.Some? <==> Stored(p, w)
    ensures e.response == Some(200) <==> p.status == PartlyDone || Stored(p, w)
    ensures e.response == Some(500) <==> p.status == Done && Make(w.mkdir).MakeFailed?
    ensures e.response.None? <==> p.status.OtherStatus? || (p.status == Done && Make(w.mkdir).Made? && !w.streamFinished)
    ensures e.shortcut.Some? ==> e.shortcut.value.sessionid == SessionIdOf(p, w)
  {
    var a := Announce(st, p, w, host);
    if a.pending.Some? then Finish(a.state, a.pending.value)
    else Effect(a.state, a.response, None, false)
  }

  /**
   * A part that is not stored never decrements: its transaction holds the
   * announced length and a `remains` that is either the earlier one or,
   * for a record without a length yet, the announced length.
   */
  lemma UnstoredPartNeverDecrements(st: State, p: Part, w: World, host: Host)
    requires DirectoryStore.Wellformed(st.directories)
    requires !Stored(p, w)
    ensures var tid := TransactionIdOf(p, w);
            var e := OnPart(st, p, w, host);
            && !e.closed
            && tid in e.state.transactions
            && e.state.transactions[tid].remains
               == (if tid in st.transactions && st.transactions[tid].length != 0
                   then st.transactions[tid].remains else TransactionLengthOf(p))
  {
  }

  /**
   * A stored part completes against the counter as it stands when its
   * stream finishes, after whatever calls other callbacks made in between:
   * with `r` parts then remaining it closes exactly when `r <= 1`, removing
   * the record; otherwise one fewer part remains. No other id changes.
   */
  lemma StoredPartDecrementsOnce(st: State, p: Part, w: World, host: Host, between: seq<Transactions.Op>, later: DirectoryStore.Store)
    requires DirectoryStore.Wellformed(st.directories)
    requires Stored(p, w)
    ensures var tid := TransactionIdOf(p, w);
            var a := Announce(st, p, w, host);
            var m := Transactions.Execute(a.state.transactions, between).state;
            var e := Finish(State(m, later), a.pending.value);
            var r := Transactions.Remaining(m, tid);
            && (e.closed <==> r <= 1)
            && (e.closed ==> tid !in e.state.transactions)
            && (!e.closed ==> tid in e.state.transactions && e.state.transactions[tid].remains == r - 1)
            && e.state.transactions - {tid} == m - {tid}
  {
  }

  /**
   * A lone part without a transaction id or length is its own transaction
   * of one: storing it closes that transaction at once and leaves no record.
   */
  lemma LonePartClosesAtOnce(st: State, p: Part, w: World, host: Host)
    requires DirectoryStore.Wellformed(st.directories)
    requires !Truthy(p.tid) && p.tlen.None?
    requires w.newTid !in st.transactions
    requires Stored(p, w)
    ensures OnPart(st, p, w, host).closed
    ensures OnPart(st, p, w, host).state.transactions == st.transactions
    ensures OnPart(st, p, w, host).shortcut.Some?
  {
  }

  /**
   * Two stored parts announced as one transaction of two, for one session
   * the normaliser leaves unchanged: the first does not close it, the second
   * does, no record is left, both files go to the same Directory, and the
   * second part creates no further Directory.
   */
  lemma TwoPartTransaction(st: State, p1: Part, w1: World, p2: Part, w2: World, host: Host)
    requires DirectoryStore.Wellformed(st.directories)
    requires Truthy(p1.tid) && p2.tid == p1.tid && p1.tlen == Some(2) && p2.tlen == Some(2)
    requires p1.tid.value !in st.transactions
    requires Truthy(p1.sid) && p2.sid == p1.sid && host.guidFromString(p1.sid.value) == Some(p1.sid.value)
    requires Stored(p1, w1) && Stored(p2, w2)
    ensures var e1 := OnPart(st, p1, w1, host);
            var e2 := OnPart(e1.state, p2, w2, host);
            && !e1.closed && e2.closed
            && p1.tid.value !in e2.state.transactions
            && e2.state.directories == e1.state.directories
            && p1.sid.value in e1.state.directories.bySessionId
            && var dir := e1.state.directories.bySessionId[p1.sid.value].physicalpath.value;
               && e1.shortcut.value.destination == host.join(dir, p1.filename)
               && e2.shortcut.value.destination == host.join(dir, p2.filename)
  {
  }

  /**
   * Completions wait for their streams, so announcements and completions of
   * one transaction interleave. The same part reported done three times
   * for a transaction of two, with all three announcements made before any
   * stream finishes: the completions answer false, true and then true again,
   * because the second removed the record and the third finds none. The
   * upload is reported complete twice, and the counter is left as it was.
   */
  lemma DuplicateDonePartsCloseTwice(st: State, p: Part, w1: World, w2: World, w3: World, host: Host)
    requires DirectoryStore.Wellformed(st.directories)
    requires Truthy(p.tid) && p.tlen == Some(2) && p.tid.value !in st.transactions
    requires Stored(p, w1) && Stored(p, w2) && Stored(p, w3)
    ensures var a1 := Announce(st, p, w1, host);
            var a2 := Announce(a1.state, p, w2, host);
            var a3 := Announce(a2.state, p, w3, host);
            var e1 := Finish(a3.state, a1.pending.value);
            var e2 := Finish(e1.state, a2.pending.value);
            var e3 := Finish(e2.state, a3.pending.value);
            && !e1.closed && e2.closed && e3.closed
            && e3.state.transactions == st.transactions
  {
    var tid := p.tid.value;
    assert TransactionIdOf(p, w1) == tid && TransactionIdOf(p, w2) == tid && TransactionIdOf(p, w3) == tid;
    assert TransactionLengthOf(p) == 2;
    var a1 := Announce(st, p, w1, host);
    var a2 := Announce(a1.state, p, w2, host);
    var a3 := Announce(a2.state, p, w3, host);
    assert a3.state.transactions
           == Transactions.SetLength(Transactions.SetLength(Transactions.SetLength(
                st.transactions, Some(tid), Some(2)), Some(tid), Some(2)), Some(tid), Some(2));
    Transactions.AnnouncedThriceClosesTwice(st.transactions, tid);
  }

  /**
   * The same three reports when each stream finishes before the next
   * callback starts: every completion follows a fresh announcement, so
   * the third re-creates the record and does not close it.
   */
  lemma SequentialDuplicatesCloseOnce(st: State, p: Part, w1: World, w2: World, w3: World, host: Host)
    requires DirectoryStore.Wellformed(st.directories)
    requires Truthy(p.tid) && p.tlen == Some(2) && p.tid.value !in st.transactions
    requires Stored(p, w1) && Stored(p, w2) && Stored(p, w3)
    ensures var e1 := OnPart(st, p, w1, host);
            var e2 := OnPart(e1.state, p, w2, host);
            var e3 := OnPart(e2.state, p, w3, host);
            && !e1.closed && e2.closed && !e3.closed
            && e3.state.transactions == st.transactions[p.tid.value := Transactions.Txn(2, 1)]
  {
    var tid := p.tid.value;
    assert TransactionIdOf(p, w1) == tid && TransactionIdOf(p, w2) == tid && TransactionIdOf(p, w3) == tid;
    assert TransactionLengthOf(p) == 2;
    Transactions.AlternatingClosesOnce(st.transactions, tid);
  }
}
