/** Client sessions (dbeClient.cc, dataSender.cc, dataRetriever.cc against
    serverOptThread.cc, dataReceiver.cc, enclaveRecvDecoder.cc): every client talks to a
    server thread and the helper thread it starts; the server threads share a table of
    client locks.

    Channels deliver messages in order. One step is one send, one receive, one lock
    operation or the start or join of a thread. A branch that ends a program with an
    error is the state `CFailed`, `MFailed` or `HFailed`. */
module Session {

  datatype Operation = Upload | Offline | Download | Attest

  datatype Message =
    | RaNotNeeded | RaNotSupported | KeyInit | KeyReply
    | LoginUpload | LoginOffline | LoginDownload | LoginResponse | FileNonExist
    | UploadChunk | RecipeEnd | RestoreReady | RestoreChunk | RestoreFinal

  /** The client: `dbeClient.cc` and the threads it runs after the login. */
  datatype ClientPc =
    | CSendRa | CSendInit | CWaitKey | CSendLogin | CWaitLogin
    | CSendData | CSendReady | CRecvData
    | CClosing | CClosed | CFailed

  /** The server thread of a client, `ServerOptThread::Run`. */
  datatype MainPc =
    | MRecvRa | MWaitAttested | MRecvInit
    | MLockTable | MLockClient | MReleaseTable     // the client lock is taken under the table lock
    | MSendKey | MRecvLogin | MCheckFile | MSendMissing | MWaitClose
    | MStart | MReadHeader | MRespond | MJoin | MUnlock | MDone | MFailed

  /** The helper: `DataReceiver::Run` or `EnclaveRecvDecoder::Run`. */
  datatype HelperPc = HNone | HReceive | HWaitReady | HRestore | HWaitClose | HDone | HFailed

  /** `up` and `down` are the channels; `file` says whether the recipe exists; `login` is
      the operation the server was asked for. */
  datatype Session = Session(
    op: Operation, id: nat, file: bool,
    client: ClientPc, main: MainPc, helper: HelperPc,
    up: seq<Message>, down: seq<Message>, closed: bool,
    login: Operation, headerRead: bool, batchesRead: nat)

  /** `known` are the clients with a lock in the table, `held` maps the locked ones to
      the session that holds the lock; `table` is the holder of the table lock. */
  datatype State = State(sessions: seq<Session>, table: int, known: set<nat>, held: map<nat, nat>)

  const FREE: int := -1

  function LoginOf(op: Operation): Message {
    match op
    case Upload => LoginUpload
    case Offline => LoginOffline
    case Download => LoginDownload
    case Attest => RaNotSupported
  }

  function Say(x: Session, m: Message): Session { x.(up := x.up + [m]) }
  function Reply(x: Session, m: Message): Session { x.(down := x.down + [m]) }

  // ---- the client ----------------------------------------------------------

  /** One step of the client; `more` is whether an upload has another batch. */
  function ClientStep(x: Session, more: bool): Session {
    match x.client
    case CSendRa => if x.op == Attest then Say(x, RaNotSupported).(client := CClosing)
        else Say(x, RaNotNeeded).(client := CSendInit)
    case CSendInit => Say(x, KeyInit).(client := CWaitKey)
    case CWaitKey =>
      if x.down == [] then x
      else x.(down := x.down[1..], client := if x.down[0] == KeyReply then CSendLogin else CFailed)
    case CSendLogin => Say(x, LoginOf(x.op)).(client := CWaitLogin)
    case CWaitLogin =>
      if x.down == [] then x
      else
        var m := x.down[0];
        x.(down := x.down[1..],
           client := if m == LoginResponse then (if x.op == Download then CSendReady else CSendData)
                     else if m == FileNonExist && x.op == Download then CClosing else CFailed)
    case CSendData => if more then Say(x, UploadChunk) else Say(x, RecipeEnd).(client := CClosing)
    case CSendReady => Say(x, RestoreReady).(client := CRecvData)
    case CRecvData =>
      if x.down == [] then x
      else
        var m := x.down[0];
        x.(down := x.down[1..],
           client := if m == RestoreChunk then CRecvData else if m == RestoreFinal then CClosing else CFailed)
    case CClosing => x.(client := CClosed, closed := true)
    case CClosed => x
    case CFailed => x
  }

  // ---- the server ----------------------------------------------------------

  /** A receive: nothing yet, a message, or the end of the connection. */
  datatype Received = Nothing | Got(m: Message) | Hangup

  function Receive(x: Session): Received {
    if x.up != [] then Got(x.up[0]) else if x.closed then Hangup else Nothing
  }

  function Take(x: Session): Session { if x.up != [] then x.(up := x.up[1..]) else x }

  /** One step of the server thread other than a lock operation. */
  function MainLocal(x: Session): Session {
    match x.main
    case MRecvRa =>
      (match Receive(x)
       case Nothing => x
       case Got(RaNotNeeded) => Take(x).(main := MRecvInit)
       case Got(RaNotSupported) => Take(x).(main := MWaitAttested)
       case _ => Take(x).(main := MFailed))
    case MWaitAttested => if Receive(x) == Nothing then x else Take(x).(main := MDone)
    case MRecvInit =>
      (match Receive(x)
       case Nothing => x
       case Got(KeyInit) => Take(x).(main := MLockTable)
       case _ => Take(x).(main := MFailed))
    case MSendKey => Reply(x, KeyReply).(main := MRecvLogin)
    case MRecvLogin =>
      (match Receive(x)
       case Nothing => x
       case Got(LoginUpload) => Take(x).(main := MCheckFile, login := Upload)
       case Got(LoginOffline) => Take(x).(main := MCheckFile, login := Offline)
       case Got(LoginDownload) => Take(x).(main := MCheckFile, login := Download)
       case _ => Take(x).(main := MFailed))
    case MCheckFile => x.(main := if x.login == Download && !x.file then MSendMissing else MStart)
    case MSendMissing => Reply(x, FileNonExist).(main := MWaitClose)
    case MWaitClose =>
      (match Receive(x)
       case Nothing => x
       case Hangup => x.(main := MUnlock)
       case Got(_) => Take(x).(main := MFailed))
    case MStart => x.(helper := if x.login == Download then HWaitReady else HReceive,
                      main := if x.login == Download then MReadHeader else MRespond)
    case MReadHeader => x.(headerRead := true, main := MRespond)
    case MRespond => Reply(x, LoginResponse).(main := MJoin)
    case MJoin => if x.helper == HDone then x.(main := MUnlock) else x
    case _ => x
  }

  /** One step of the helper; `more` is whether the recipe has another batch of chunks to
      send before the final one. */
  function HelperStep(x: Session, more: bool): Session {
    match x.helper
    case HReceive =>
      (match Receive(x)
       case Nothing => x
       case Hangup => x.(helper := HDone)
       case Got(m) => Take(x).(helper := if m == UploadChunk || m == RecipeEnd then HReceive else HFailed))
    case HWaitReady =>
      (match Receive(x)
       case Nothing => x
       case Got(RestoreReady) => Take(x).(helper := HRestore)
       case _ => Take(x).(helper := HFailed))
    case HRestore =>
      var y := x.(batchesRead := x.batchesRead + 1);
      if more then Reply(y, RestoreChunk) else Reply(y, RestoreFinal).(helper := HWaitClose)
    case HWaitClose => if Receive(x) == Nothing then x else Take(x).(helper := HDone)
    case _ => x
  }

  // ---- the whole system ----------------------------------------------------

  datatype Actor = Client | Main | Helper

  function Set(s: State, i: nat, x: Session): State
    requires i < |s.sessions|
  {
    s.(sessions := s.sessions[i := x])
  }

  /** One step of the server thread of session `i`. */
  function MainStep(s: State, i: nat): State
    requires i < |s.sessions|
  {
    var x := s.sessions[i];
    match x.main
    case MLockTable => if s.table == FREE then Set(s, i, x.(main := MLockClient)).(table := i) else s
    case MLockClient =>
      // a lock that is not in the table yet is added and free
      if x.id in s.known && x.id in s.held then s
      else Set(s, i, x.(main := MReleaseTable)).(known := s.known + {x.id}, held := s.held[x.id := i])
    case MReleaseTable => Set(s, i, x.(main := MSendKey)).(table := FREE)
    case MUnlock => Set(s, i, x.(main := MDone)).(held := s.held - {x.id})
    case _ => Set(s, i, MainLocal(x))
  }

  function Step(s: State, i: nat, a: Actor, more: bool): State
    requires i < |s.sessions|
  {
    match a
    case Client => Set(s, i, ClientStep(s.sessions[i], more))
    case Main => MainStep(s, i)
    case Helper => Set(s, i, HelperStep(s.sessions[i], more))
  }

  predicate Fresh(x: Session) {
    && x.client == CSendRa && x.main == MRecvRa && x.helper == HNone
    && x.up == [] && x.down == [] && !x.closed && !x.headerRead && x.batchesRead == 0
  }

  predicate Init(s: State) {
    s.table == FREE && s.known == {} && s.held == map[] && forall i :: 0 <= i < |s.sessions| ==> Fresh(s.sessions[i])
  }

  // ---- one session ---------------------------------------------------------

  /** Between the lock and the unlock of the client lock. */
  predicate Holding(m: MainPc) {
    m == MReleaseTable || m == MSendKey || m == MRecvLogin || m == MCheckFile || m == MSendMissing || m == MWaitClose
    || m == MStart || m == MReadHeader || m == MRespond || m == MJoin || m == MUnlock
  }

  predicate Locking(m: MainPc) { m == MLockTable || m == MLockClient || m == MReleaseTable || m == MSendKey }

  predicate Uploads(op: Operation) { op == Upload || op == Offline }

  predicate AllData(s: seq<Message>) { forall i :: 0 <= i < |s| ==> s[i] == UploadChunk || s[i] == RecipeEnd }
  predicate AllChunks(s: seq<Message>) { forall i :: 0 <= i < |s| ==> s[i] == RestoreChunk }

  /** The helper that has been started for the login, before it has heard from the client. */
  predicate Started(x: Session) {
    x.login == x.op && x.helper == (if x.op == Download then HWaitReady else HReceive)
  }

  /** Client and server while the client waits for the answer to its login. */
  predicate LoginPhase(x: Session) {
    match x.main
    case MRecvLogin => x.up == [LoginOf(x.op)] && x.down == [] && x.helper == HNone
    case MCheckFile => x.up == [] && x.down == [] && x.helper == HNone && x.login == x.op
    case MSendMissing => x.up == [] && x.down == [] && x.helper == HNone && x.op == Download
    case MWaitClose => x.up == [] && x.down == [FileNonExist] && x.helper == HNone && x.op == Download
    case MStart => x.up == [] && x.down == [] && x.helper == HNone && x.login == x.op
    case MReadHeader => x.up == [] && x.down == [] && Started(x) && x.op == Download
    case MRespond => x.up == [] && x.down == [] && Started(x) && (x.op == Download ==> x.headerRead)
    case MJoin => x.up == [] && x.down == [LoginResponse] && Started(x) && (x.op == Download ==> x.headerRead)
    case _ => false
  }

  /** Client and server while the client closes the connection, or has closed it. */
  predicate ClosePhase(x: Session) {
    if x.op == Attest then
      x.helper == HNone && x.down == []
      && ((x.main == MRecvRa && x.up == [RaNotSupported]) || (x.main == MWaitAttested && x.up == [])
          || (x.main == MDone && x.up == [] && x.closed))
    else if x.op == Download then
      x.up == [] && x.down == []
      && (if x.helper == HNone then x.main == MWaitClose || (x.closed && (x.main == MUnlock || x.main == MDone))
          else x.headerRead && ((x.helper == HWaitClose && x.main == MJoin)
                                || (x.helper == HDone && x.closed
                                      && (x.main == MJoin || x.main == MUnlock || x.main == MDone))))
    else
      x.down == [] && AllData(x.up)
      && ((x.helper == HReceive && x.main == MJoin)
          || (x.helper == HDone && x.closed && x.up == [] && (x.main == MJoin || x.main == MUnlock || x.main == MDone)))
  }

  /** How the two ends of a session stand to each other. */
  predicate SessionOk(x: Session) {
    && (x.closed <==> x.client == CClosed)
    && (x.batchesRead > 0 ==> x.headerRead)
    && match x.client
       case CSendRa => x.main == MRecvRa && x.helper == HNone && x.up == [] && x.down == []
       case CSendInit =>
         x.op != Attest && x.helper == HNone && x.down == []
         && ((x.main == MRecvRa && x.up == [RaNotNeeded]) || (x.main == MRecvInit && x.up == []))
       case CWaitKey =>
         x.op != Attest && x.helper == HNone
         && ((x.main == MRecvRa && x.up == [RaNotNeeded, KeyInit] && x.down == [])
             || (x.main == MRecvInit && x.up == [KeyInit] && x.down == [])
             || (Locking(x.main) && x.up == [] && x.down == [])
             || (x.main == MRecvLogin && x.up == [] && x.down == [KeyReply]))
       case CSendLogin => x.op != Attest && x.helper == HNone && x.main == MRecvLogin && x.up == [] && x.down == []
       case CWaitLogin => x.op != Attest && LoginPhase(x)
       case CSendData => Uploads(x.op) && x.main == MJoin && x.helper == HReceive && AllData(x.up) && x.down == []
       case CSendReady => x.op == Download && x.main == MJoin && x.helper == HWaitReady && x.headerRead && x.up == []
           && x.down == []
       case CRecvData =>
         x.op == Download && x.main == MJoin && x.headerRead
         && ((x.helper == HWaitReady && x.up == [RestoreReady] && x.down == [])
             || (x.helper == HRestore && x.up == [] && AllChunks(x.down))
             || (x.helper == HWaitClose && x.up == [] && x.down != [] && x.down[|x.down| - 1] == RestoreFinal
                 && AllChunks(x.down[..|x.down| - 1])))
       case CClosing => ClosePhase(x)
       case CClosed => ClosePhase(x)
       case CFailed => false
  }

  lemma ClientOk(x: Session, more: bool)
    requires SessionOk(x)
    ensures SessionOk(ClientStep(x, more))
  {
    if x.client == CRecvData && x.down != [] { RecvDataOk(x, more); }
  }

  lemma RecvDataOk(x: Session, more: bool)
    requires SessionOk(x) && x.client == CRecvData && x.down != []
    ensures SessionOk(ClientStep(x, more))
  {
    var d := x.down;
    if x.helper == HWaitClose && |d| > 1 {
      assert d[0] == d[..|d| - 1][0];
      assert d[1..][..|d| - 2] == d[..|d| - 1][1..];
    }
  }

  /** The server thread up to the key exchange... */
  lemma MainBeforeKeys(x: Session)
    requires SessionOk(x) && (x.main == MRecvRa || x.main == MWaitAttested || x.main == MRecvInit)
    ensures SessionOk(MainLocal(x))
  {
  }

  /** ...and up to the login. */
  lemma MainBeforeLogin(x: Session)
    requires SessionOk(x) && (x.main == MSendKey || x.main == MRecvLogin)
    ensures SessionOk(MainLocal(x))
  {
  }

  lemma MainAfterLogin(x: Session)
    requires SessionOk(x)
    requires x.main == MCheckFile || x.main == MSendMissing || x.main == MWaitClose || x.main == MStart
    ensures SessionOk(MainLocal(x))
  {
  }

  lemma MainOk(x: Session)
    requires SessionOk(x)
    ensures SessionOk(MainLocal(x))
  {
    match x.main
    case MRecvRa => MainBeforeKeys(x);
    case MWaitAttested => MainBeforeKeys(x);
    case MRecvInit => MainBeforeKeys(x);
    case MSendKey => MainBeforeLogin(x);
    case MRecvLogin => MainBeforeLogin(x);
    case MCheckFile => MainAfterLogin(x);
    case MSendMissing => MainAfterLogin(x);
    case MWaitClose => MainAfterLogin(x);
    case MStart => MainAfterLogin(x);
    case _ =>
  }

  lemma HelperOk(x: Session, more: bool)
    requires SessionOk(x)
    ensures SessionOk(HelperStep(x, more))
  {
    if x.helper == HRestore { RestoreOk(x, more); } else if x.helper == HReceive { ReceiveOk(x); }
  }

  lemma RestoreOk(x: Session, more: bool)
    requires SessionOk(x) && x.helper == HRestore
    ensures SessionOk(HelperStep(x, more))
  {
    var d := HelperStep(x, more).down;
    assert d[..|d| - 1] == x.down;
  }

  lemma ReceiveOk(x: Session)
    requires SessionOk(x) && x.helper == HReceive
    ensures SessionOk(HelperStep(x, true)) && SessionOk(HelperStep(x, false))
  {
  }

  // ---- the locks -----------------------------------------------------------

  /** The table lock is held while a client lock is being taken, and the client locks are
      held by the sessions between their lock and unlock. */
  predicate LocksOk(s: State) { TableOk(s) && ClientLocksOk(s) && HeldOk(s) }

  predicate TableOk(s: State) {
    && (forall i :: 0 <= i < |s.sessions| ==> (HoldsTable(s.sessions[i].main) <==> s.table == i))
    && (s.table == FREE || 0 <= s.table < |s.sessions|)
  }

  predicate ClientLocksOk(s: State) {
    forall i :: 0 <= i < |s.sessions|
        ==> (Holding(s.sessions[i].main) <==> s.sessions[i].id in s.held && s.held[s.sessions[i].id] == i)
  }

  predicate HeldOk(s: State) {
    forall k :: k in s.held ==> k in s.known && s.held[k] < |s.sessions| && s.sessions[s.held[k]].id == k
  }

  predicate HoldsTable(m: MainPc) { m == MLockClient || m == MReleaseTable }

  ghost predicate Inv(s: State) {
    LocksOk(s) && forall i :: 0 <= i < |s.sessions| ==> SessionOk(s.sessions[i])
  }

  /** A step of one session that does not touch the locks. */
  lemma LocalInv(s: State, i: nat, x: Session)
    requires Inv(s) && i < |s.sessions| && SessionOk(x) && x.id == s.sessions[i].id
    requires Holding(x.main) == Holding(s.sessions[i].main) && HoldsTable(x.main) == HoldsTable(s.sessions[i].main)
    ensures Inv(Set(s, i, x))
  {
  }

  lemma MainLocalId(x: Session)
    ensures MainLocal(x).id == x.id
  {
  }

  lemma MainLocalHolds(x: Session)
    requires MainLocal(x).main != MFailed
    ensures Holding(MainLocal(x).main) == Holding(x.main)
  {
  }

  lemma MainLocalTable(x: Session)
    ensures HoldsTable(MainLocal(x).main) == HoldsTable(x.main)
  {
  }

  /** The lock steps stay within the phase of the session. */
  lemma LockStepOk(x: Session)
    requires SessionOk(x)
    ensures x.main == MLockTable ==> SessionOk(x.(main := MLockClient))
    ensures x.main == MLockClient ==> SessionOk(x.(main := MReleaseTable))
    ensures x.main == MReleaseTable ==> SessionOk(x.(main := MSendKey))
    ensures x.main == MUnlock ==> SessionOk(x.(main := MDone))
  {
  }

  predicate LockStep(m: MainPc) { m == MLockTable || m == MLockClient || m == MReleaseTable || m == MUnlock }

  lemma LockMoves(s: State, i: nat) returns (x: Session)
    requires i < |s.sessions| && LockStep(s.sessions[i].main) && SessionOk(s.sessions[i])
    ensures MainStep(s, i).sessions == s.sessions[i := x] && SessionOk(x)
  {
    x := MainStep(s, i).sessions[i];
    LockStepOk(s.sessions[i]);
  }

  lemma LockSessions(s: State, i: nat)
    requires Inv(s) && i < |s.sessions| && LockStep(s.sessions[i].main)
    ensures forall k :: 0 <= k < |s.sessions| ==> SessionOk(MainStep(s, i).sessions[k])
  {
    var x := LockMoves(s, i);
  }

  lemma LocksKept(s: State, i: nat)
    requires LocksOk(s) && i < |s.sessions| && LockStep(s.sessions[i].main)
    ensures LocksOk(MainStep(s, i))
  {
    TableKept(s, i);
    ClientLocksKept(s, i);
    HeldKept(s, i);
  }

  lemma TableKept(s: State, i: nat)
    requires LocksOk(s) && i < |s.sessions| && LockStep(s.sessions[i].main)
    ensures TableOk(MainStep(s, i))
  {
  }

  lemma ClientLocksKept(s: State, i: nat)
    requires LocksOk(s) && i < |s.sessions| && LockStep(s.sessions[i].main)
    ensures ClientLocksOk(MainStep(s, i))
  {
    match s.sessions[i].main
    case MLockClient => ClientLockTaken(s, i);
    case MUnlock => ClientLockGiven(s, i);
    case _ =>
  }

  lemma ClientLockTaken(s: State, i: nat)
    requires LocksOk(s) && i < |s.sessions| && s.sessions[i].main == MLockClient
    ensures ClientLocksOk(MainStep(s, i))
  {
  }

  lemma ClientLockGiven(s: State, i: nat)
    requires LocksOk(s) && i < |s.sessions| && s.sessions[i].main == MUnlock
    ensures ClientLocksOk(MainStep(s, i))
  {
  }

  lemma HeldKept(s: State, i: nat)
    requires LocksOk(s) && i < |s.sessions| && LockStep(s.sessions[i].main)
    ensures HeldOk(MainStep(s, i))
  {
  }

  lemma LockInv(s: State, i: nat)
    requires Inv(s) && i < |s.sessions| && LockStep(s.sessions[i].main)
    ensures Inv(MainStep(s, i))
  {
    LockSessions(s, i);
    LocksKept(s, i);
  }

  lemma MainInv(s: State, i: nat)
    requires Inv(s) && i < |s.sessions|
    ensures Inv(MainStep(s, i))
  {
    var x := s.sessions[i];
    if LockStep(x.main) {
      LockInv(s, i);
    } else {
      MainOk(x);
      NeverFails(MainLocal(x));
      MainLocalId(x);
      MainLocalHolds(x);
      MainLocalTable(x);
      LocalInv(s, i, MainLocal(x));
    }
  }

  lemma StepInv(s: State, i: nat, a: Actor, more: bool)
    requires Inv(s) && i < |s.sessions|
    ensures Inv(Step(s, i, a, more))
  {
    var x := s.sessions[i];
    match a
    case Client =>
      ClientOk(x, more);
      ClientKeeps(x, more);
      LocalInv(s, i, ClientStep(x, more));
    case Main => MainInv(s, i);
    case Helper =>
      HelperOk(x, more);
      HelperKeeps(x, more);
      LocalInv(s, i, HelperStep(x, more));
  }

  lemma ClientKeeps(x: Session, more: bool)
    ensures ClientStep(x, more).id == x.id && ClientStep(x, more).main == x.main
  {
  }

  lemma HelperKeeps(x: Session, more: bool)
    ensures HelperStep(x, more).id == x.id && HelperStep(x, more).main == x.main
  {
  }

  // ---- runs --------------------------------------------------------------

  ghost predicate Steps(s: State, s': State) {
    exists i, a, more :: 0 <= i < |s.sessions| && s' == Step(s, i, a, more)
  }

  ghost predicate StepAt(run: seq<State>, i: nat)
    requires i + 1 < |run|
  {
    Steps(run[i], run[i + 1])
  }

  ghost predicate IsRun(run: seq<State>) {
    run != [] && Init(run[0]) && forall i :: 0 <= i < |run| - 1 ==> StepAt(run, i)
  }

  lemma StepsInv(s: State, s': State)
    requires Inv(s) && Steps(s, s')
    ensures Inv(s')
  {
    var i, a, more :| 0 <= i < |s.sessions| && s' == Step(s, i, a, more);
    StepInv(s, i, a, more);
  }

  lemma {:induction false} RunInv(run: seq<State>, i: nat)
    requires IsRun(run) && i < |run|
    ensures Inv(run[i])
  {
    if i > 0 {
      RunInv(run, i - 1);
      assert StepAt(run, i - 1);
      StepsInv(run[i - 1], run[i]);
    }
  }

  /** No end of a session ever takes an error branch for a message of the wrong type or a
      missing one. */
  lemma NoWrongType(run: seq<State>, i: nat, k: nat)
    requires IsRun(run) && i < |run| && k < |run[i].sessions|
    ensures var x := run[i].sessions[k]; x.client != CFailed && x.main != MFailed && x.helper != HFailed
  {
    RunInv(run, i);
    NeverFails(run[i].sessions[k]);
  }

  lemma NeverFails(x: Session)
    requires SessionOk(x)
    ensures x.client != CFailed && x.main != MFailed && x.helper != HFailed
  {
  }

  /** At most one session of a client is between lock and unlock. */
  lemma OneSessionPerClient(run: seq<State>, i: nat, j: nat, k: nat)
    requires IsRun(run) && i < |run| && j < |run[i].sessions| && k < |run[i].sessions|
    requires Holding(run[i].sessions[j].main) && Holding(run[i].sessions[k].main)
    requires run[i].sessions[j].id == run[i].sessions[k].id
    ensures j == k
  {
    RunInv(run, i);
  }

  /** The header of the recipe is read before the helper reads the first batch of it. */
  lemma HeaderBeforeBatches(run: seq<State>, i: nat, k: nat)
    requires IsRun(run) && i < |run| && k < |run[i].sessions|
    ensures var x := run[i].sessions[k]; x.batchesRead > 0 || x.helper == HRestore ==> x.headerRead
  {
    RunInv(run, i);
    RestoreHasHeader(run[i].sessions[k]);
  }

  lemma RestoreHasHeader(x: Session)
    requires SessionOk(x)
    ensures x.batchesRead > 0 || x.helper == HRestore ==> x.headerRead
  {
  }

  // ---- waiting for locks ---------------------------------------------------

  /** Server thread `i` waits for a lock that server thread `j` holds. */
  predicate WaitsFor(s: State, i: nat, j: nat)
    requires i < |s.sessions| && j < |s.sessions|
  {
    || (s.sessions[i].main == MLockTable && HoldsTable(s.sessions[j].main))
    || (s.sessions[i].main == MLockClient && Holding(s.sessions[j].main) && s.sessions[j].id == s.sessions[i].id)
  }

  /** A chain of waiting threads: each waits for the next. */
  predicate Chain(s: State, c: seq<nat>) {
    (forall k :: 0 <= k < |c| ==> c[k] < |s.sessions|) && forall k :: 0 <= k < |c| - 1 ==> WaitsFor(s, c[k], c[k + 1])
  }

  lemma HolderWaitsForNone(s: State, i: nat, j: nat, k: nat)
    requires LocksOk(s) && i < |s.sessions| && j < |s.sessions| && k < |s.sessions|
    requires WaitsFor(s, i, j) && WaitsFor(s, j, k)
    ensures i != k && s.sessions[k].main != MLockTable && s.sessions[k].main != MLockClient
  {
  }

  /** Although the table lock is held while waiting for a client lock, lock waits form no
      cycle: of three threads that wait one for the next, the last waits for no lock and
      is not the first, and none waits for itself. */
  lemma NoWaitCycle(run: seq<State>, i: nat, c: seq<nat>)
    requires IsRun(run) && i < |run| && Chain(run[i], c) && |c| > 1
    ensures c[0] != c[1] && |c| <= 3
    ensures |c| == 3 ==>
              c[0] != c[2] && run[i].sessions[c[2]].main != MLockTable && run[i].sessions[c[2]].main != MLockClient
  {
    RunInv(run, i);
    assert WaitsFor(run[i], c[0], c[0 + 1]);
    if |c| > 2 {
      assert WaitsFor(run[i], c[1], c[1 + 1]);
      HolderWaitsForNone(run[i], c[0], c[1], c[2]);
      NoFourth(run[i], c);
    }
  }

  lemma NoFourth(s: State, c: seq<nat>)
    requires Chain(s, c) && |c| > 2 && s.sessions[c[2]].main != MLockTable && s.sessions[c[2]].main != MLockClient
    ensures |c| == 3
  {
    assert |c| == 3 || WaitsFor(s, c[2], c[2 + 1]);
  }

  // ---- progress ------------------------------------------------------------

  predicate Finished(x: Session) { x.client == CClosed && x.main == MDone }

  predicate WaitsForLock(x: Session) { x.main == MLockTable || x.main == MLockClient }

  /** Some end of the session can move, unless it waits for a lock or is finished. */
  lemma SessionMoves(x: Session)
    requires SessionOk(x) && !Finished(x) && !WaitsForLock(x) && x.main != MReleaseTable && x.main != MUnlock
    ensures ClientStep(x, false) != x || MainLocal(x) != x || HelperStep(x, false) != x
  {
  }

  predicate CanMove(s: State, i: nat)
    requires i < |s.sessions|
  {
    exists a :: Step(s, i, a, false) != s
  }

  lemma Moves(s: State, i: nat)
    requires Inv(s) && i < |s.sessions| && !Finished(s.sessions[i]) && !WaitsForLock(s.sessions[i])
    ensures CanMove(s, i)
  {
    var x := s.sessions[i];
    if x.main == MReleaseTable || x.main == MUnlock {
      assert Step(s, i, Main, false).sessions[i].main != x.main;
    } else {
      SessionMoves(x);
      if ClientStep(x, false) != x {
        assert Step(s, i, Client, false).sessions[i] != x;
      } else if MainLocal(x) != x {
        assert Step(s, i, Main, false).sessions[i] != x;
      } else {
        assert Step(s, i, Helper, false).sessions[i] != x;
      }
    }
  }

  /** No deadlock: in every reachable state in which some session is not finished, some
      session can move. */
  lemma NoDeadlock(run: seq<State>, i: nat, k: nat) returns (j: nat)
    requires IsRun(run) && i < |run| && k < |run[i].sessions| && !Finished(run[i].sessions[k])
    ensures j < |run[i].sessions| && CanMove(run[i], j)
  {
    RunInv(run, i);
    var s := run[i];
    j := k;
    if s.sessions[j].main == MLockTable {
      if s.table == FREE {
        assert Step(s, j, Main, false).sessions[j].main == MLockClient;
        return;
      }
      j := s.table;
    }
    if s.sessions[j].main == MLockClient {
      if s.sessions[j].id !in s.held {
        assert Step(s, j, Main, false).sessions[j].main == MReleaseTable;
        return;
      }
      j := s.held[s.sessions[j].id];
    }
    Moves(s, j);
  }
}
