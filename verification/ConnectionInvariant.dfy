/**
 What every handler keeps: how the state of a connection is tied to the bytes it has received and
 sent, to its file in the storage root, and to the history of the visible store.
 */
module ConnectionInvariant {
  import opened Text
  import opened Requests
  import opened Storage
  import opened Connection

  // ---------------------------------------------------------------------------
  // Histories

  /** The visible store after a history of commits. */
  function Replay(init: map<string, string>, log: seq<Commit>): map<string, string> {
    if log == [] then init
    else
      var last := log[|log| - 1];
      Replay(init, log[..|log| - 1])[last.name := last.contents]
  }

  /** The one restriction on clients: nobody asks for the name of a temporary file. */
  ghost predicate NoTempRequest(c: Conn) {
    c.past.asked.Some? ==> !IsTempName(c.past.asked.value.filename)
  }

  // ---------------------------------------------------------------------------
  // The invariant of a connection

  /** Everything the connection has said, with what it is still committed to say. */
  function Promised(c: Conn): string
    requires c.WellFormed()
  {
    c.past.sent + c.Unsent()
  }

  ghost predicate Idle(c: Conn) {
    c.temp == "" && !c.inputOpen && !c.outputOpen
  }

  ghost predicate Awaiting(c: Conn) {
    c.past.asked.None? && c.past.payload == "" && c.past.sent == "" && c.pending == "" && Idle(c)
  }

  /** A download reads one frozen file, whose contents the store had under the requested name at `point`. */
  ghost predicate Serving(init: map<string, string>, w: World, c: Conn) {
    && c.past.asked.Some? && c.past.asked.value.Get? && c.past.payload == ""
    && w.disk.Frozen(c.input) && c.expected == |w.disk.data[c.input]|
    && c.past.point <= |w.log|
    && ServedFrom(Replay(init, w.log[..c.past.point]), c.past.asked.value.filename, w.disk.data[c.input])
    && c.temp == "" && !c.outputOpen && (c.Live() ==> c.inputOpen)
  }

  predicate ServedFrom(store: map<string, string>, name: string, contents: string) {
    name in store && store[name] == contents
  }

  /** The window holds the next bytes of the file, and the reader stands right behind it. */
  ghost predicate Windowed(w: World, c: Conn)
    requires c.WellFormed() && c.input in w.disk.data
  {
    var file := w.disk.data[c.input];
    && c.position == c.transferred + |c.window| - c.windowOffset <= c.expected == |file|
    && c.window[c.windowOffset..] == file[c.transferred..c.position]
    && c.pending == "" && c.past.sent == OkLine(c.expected) + file[..c.transferred]
  }

  predicate IsServing(c: Conn) {
    c.state.SendingGetHeader? || c.state.SendingFile?
  }

  /** The temporary file belongs to this connection and holds exactly the payload received so far. */
  ghost predicate OwnsTemp(w: World, c: Conn) {
    && c.Live() && (exists s: nat | s <= w.sequence :: c.temp == TempName(c.fd, s))
    && c.temp in w.disk.names && w.disk.names[c.temp] == c.output
    && c.output in w.disk.data && w.disk.data[c.output] == c.past.payload
  }

  ghost predicate Uploading(w: World, c: Conn) {
    && c.past.asked == Some(Put(c.final, c.expected)) && c.expected <= MAX_UPLOAD_BYTES
    && c.transferred == |c.past.payload|
    && !c.inputOpen && (c.Live() ==> c.outputOpen && OwnsTemp(w, c))
  }

  /** The whole payload has been committed under the requested name, at `point`. */
  ghost predicate Stored(w: World, c: Conn) {
    && c.past.asked == Some(Put(c.final, c.expected))
    && |c.past.payload| == c.expected
    && c.past.point < |w.log| && w.log[c.past.point] == Commit(c.final, c.past.payload)
    && Idle(c)
  }

  /** An error line is the whole output, or all that follows `READY`. */
  ghost predicate Refused(c: Conn)
    requires c.WellFormed()
  {
    && Idle(c)
    && exists reason :: Promised(c) == ErrorLine(reason) || Promised(c) == READY_LINE + ErrorLine(reason)
  }

  /** The invariant, which also holds between a handler that gives up and the closing that follows. */
  ghost predicate Sound(init: map<string, string>, w: World, c: Conn) {
    && c.WellFormed()
    && (!c.Live() ==> Idle(c))
    && match c.state
       case AwaitingRequest => Awaiting(c)
       case SendingGetHeader =>
         Serving(init, w, c) && Promised(c) == OkLine(c.expected) && c.transferred == 0 && c.position == 0
       case SendingFile => Serving(init, w, c) && Windowed(w, c) && c.expected > 0
       case SendingReady => Uploading(w, c) && Promised(c) == READY_LINE && c.transferred == 0
       case ReceivingFile =>
         Uploading(w, c) && c.pending == "" && c.past.sent == READY_LINE && c.transferred < c.expected
       case SendingResult => Stored(w, c) && Promised(c) == READY_LINE + OkLine(c.expected)
       case SendingError => Refused(c)
  }

  /** A live connection in a control-line state always has something to send. */
  predicate HasOutput(c: Conn) {
    c.Live() && !c.WantsInput() && !c.state.SendingFile? ==> c.pendingOffset < |c.pending|
  }

  ghost predicate ConnInv(init: map<string, string>, w: World, c: Conn) {
    Sound(init, w, c) && HasOutput(c)
  }

  // ---------------------------------------------------------------------------
  // What a handler may do to the shared state

  ghost predicate Issued(name: string, sequence: nat) {
    exists fd: nat, s: nat | s <= sequence :: name == TempName(fd, s)
  }

  ghost predicate SameTemp(d: Disk, d': Disk, name: string) {
    name in d.names ==>
      && name in d'.names && d'.names[name] == d.names[name]
      && d.names[name] in d.data && d'.Contents(d.names[name]) == d.data[d.names[name]]
  }

  /**
   Between two states of the shared part, a connection whose temporary name was `own` and is now `own'`
   leaves every frozen file and everybody else's temporary file alone.
   */
  ghost predicate Isolated(w: World, w': World, own: string, own': string) {
    && w'.disk.Valid() && w.sequence <= w'.sequence
    && KeepsFrozen(w.disk, w'.disk)
    && (forall n | Issued(n, w.sequence) && n != own :: SameTemp(w.disk, w'.disk, n))
    && (forall n | IsTempName(n) && n in w'.disk.names :: n == own' || (n != own && n in w.disk.names))
    && (own' == "" || own' == own || !Issued(own', w.sequence))
  }

  /** The visible store is what the history says. */
  ghost predicate History(init: map<string, string>, w: World) {
    w.disk.Valid() && w.disk.Visible() == Replay(init, w.log)
  }

  /** A handler commits at most once, and then exactly the payload that its own connection has received. */
  ghost predicate CommitsOwn(w: World, w': World, c': Conn) {
    w'.log == w.log
    || (c'.state.SendingResult? && c'.past.point == |w.log|
        && w'.log == w.log + [Commit(c'.final, c'.past.payload)])
  }

  ghost predicate Kept(init: map<string, string>, w: World, c: Conn, s: Step) {
    && Sound(init, s.w, s.c) && (s.ok ==> HasOutput(s.c))
    && Isolated(w, s.w, c.temp, s.c.temp)
    && History(init, s.w)
    && CommitsOwn(w, s.w, s.c)
    && (s.c.fd == c.fd || s.c.fd == -1)
    && c.past.received <= s.c.past.received && c.past.sent <= s.c.past.sent
  }

  // ---------------------------------------------------------------------------
  // The same predicates as sets: passing a member on does not take the predicate apart

  ghost function SoundConns(init: map<string, string>, w: World): iset<Conn> {
    iset c: Conn | Sound(init, w, c)
  }

  ghost function GoodConns(init: map<string, string>, w: World): iset<Conn> {
    iset c: Conn | ConnInv(init, w, c)
  }

  ghost function GoodWorlds(init: map<string, string>): iset<World> {
    iset w: World | History(init, w)
  }

  ghost function GoodSteps(init: map<string, string>, w: World, c: Conn): iset<Step> {
    iset s: Step | Kept(init, w, c, s)
  }
}
