/**
 Exactly when the store is safe, without any hypothesis on the names that clients ask for. In a state in which every
 unfinished upload owns its temporary file, one event keeps everything in order if and only if every handler that it
 calls meets its guard: a commit is not made under the temporary name of another upload, a temporary file is not opened
 where something is stored, and a download is not of an unfinished upload.
 */
module Guards {
  import opened Text
  import opened Requests
  import opened Storage
  import opened Connection
  import opened ConnectionInvariant
  import opened System

  // ---------------------------------------------------------------------------
  // Order

  predicate Serving(c: Conn) {
    c.Live() && IsServing(c)
  }

  /** A connection with a temporary file is a live upload that owns it; a download has its file open. */
  ghost predicate Tidy(w: World, c: Conn) {
    && c.WellFormed()
    && (c.temp != "" ==>
          && OwnsTemp(w, c) && (c.state.SendingReady? || c.state.ReceivingFile?)
          && c.transferred == |c.past.payload| && c.expected <= MAX_UPLOAD_BYTES
          && c.past.asked == Some(Put(c.final, c.expected)))
    && (c.Live() && (c.state.SendingReady? || c.state.ReceivingFile?) ==> c.temp != "")
    && (c.Live() && c.state.AwaitingRequest? ==> c.past.payload == "")
    && (Serving(c) ==> c.input in w.disk.data)
  }

  /** The temporary names of all connections but one. */
  function OtherTemps(conns: seq<Conn>, id: nat): set<string> {
    set j | 0 <= j < |conns| && j != id && conns[j].temp != "" :: conns[j].temp
  }

  function Temps(conns: seq<Conn>): set<string> {
    set j | 0 <= j < |conns| && conns[j].temp != "" :: conns[j].temp
  }

  /** No unfinished upload writes to this file. */
  predicate NotUploaded(conns: seq<Conn>, file: FileId) {
    forall j | 0 <= j < |conns| && conns[j].temp != "" :: conns[j].output != file
  }

  ghost predicate Orderly(s: System) {
    && s.w.disk.Valid()
    && (forall j | 0 <= j < |s.conns| :: Tidy(s.w, s.conns[j]))
    && DistinctTemps(s.conns)
    && (forall j | 0 <= j < |s.conns| && Serving(s.conns[j]) :: NotUploaded(s.conns, s.conns[j].input))
  }

  /** What is stored: the contents under every name that is not the temporary name of an unfinished upload. */
  ghost function Store(s: System): map<string, string>
    requires s.w.disk.Valid()
  {
    map n | n in s.w.disk.names && n !in Temps(s.conns) :: s.w.disk.data[s.w.disk.names[n]]
  }

  /** Every open download still reads the same contents. */
  ghost predicate KeepsOpen(s: System, w': World) {
    forall j | 0 <= j < |s.conns| && Serving(s.conns[j]) && s.conns[j].input in s.w.disk.data ::
      s.conns[j].input in w'.disk.data && w'.disk.data[s.conns[j].input] == s.w.disk.data[s.conns[j].input]
  }

  function Moved(s: System, id: nat, w': World, c': Conn): System
    requires id < |s.conns|
  {
    System(w', s.conns[id := c'])
  }

  /** One connection moves: order is kept, open downloads are, and the store changes by the given commit only. */
  ghost predicate Fine(s: System, id: nat, w': World, c': Conn, commit: Option<Commit>)
    requires id < |s.conns| && s.w.disk.Valid()
  {
    var s' := Moved(s, id, w', c');
    && Orderly(s') && KeepsOpen(s, w')
    && (commit.None? ==> w'.log == s.w.log && Store(s') == Store(s))
    && (commit.Some? ==>
          w'.log == s.w.log + [commit.value] && Store(s') == Store(s)[commit.value.name := commit.value.contents])
  }

  lemma FineThen(s: System, id: nat, w1: World, c1: Conn, w2: World, c2: Conn, commit: Option<Commit>)
    requires id < |s.conns| && Orderly(s) && Fine(s, id, w1, c1, None)
    requires Fine(Moved(s, id, w1, c1), id, w2, c2, commit)
    requires Serving(s.conns[id]) ==> Serving(c1) && c1.input == s.conns[id].input
    ensures Fine(s, id, w2, c2, commit)
  {
    var s1 := Moved(s, id, w1, c1);
    assert Moved(s1, id, w2, c2) == Moved(s, id, w2, c2);
    forall j | 0 <= j < |s.conns| && Serving(s.conns[j])
      ensures Serving(s1.conns[j]) && s1.conns[j].input == s.conns[j].input
    {
    }
    hide Orderly, Store;
  }

  lemma TempsSplit(conns: seq<Conn>, id: nat)
    requires id < |conns|
    ensures Temps(conns) == OtherTemps(conns, id) + OwnTemp(conns[id])
  {
  }

  function OwnTemp(c: Conn): set<string> {
    if c.temp != "" then {c.temp} else {}
  }

  lemma TempsMoved(s: System, id: nat, w': World, c': Conn)
    requires id < |s.conns|
    ensures Temps(Moved(s, id, w', c').conns) == OtherTemps(s.conns, id) + OwnTemp(c')
  {
    var conns' := s.conns[id := c'];
    TempsSplit(conns', id);
    OthersUnmoved(s.conns, id, c');
  }

  lemma OthersUnmoved(conns: seq<Conn>, id: nat, c': Conn)
    requires id < |conns|
    ensures OtherTemps(conns[id := c'], id) == OtherTemps(conns, id)
  {
    var conns' := conns[id := c'];
    forall x | x in OtherTemps(conns, id)
      ensures x in OtherTemps(conns', id)
    {
      var j :| 0 <= j < |conns| && j != id && conns[j].temp != "" && conns[j].temp == x;
      assert conns'[j] == conns[j];
    }
    forall x | x in OtherTemps(conns', id)
      ensures x in OtherTemps(conns, id)
    {
      var j :| 0 <= j < |conns'| && j != id && conns'[j].temp != "" && conns'[j].temp == x;
      assert conns'[j] == conns[j];
    }
  }

  lemma OwnNotOther(s: System, id: nat)
    requires id < |s.conns| && DistinctTemps(s.conns) && s.conns[id].temp != ""
    ensures s.conns[id].temp !in OtherTemps(s.conns, id)
  {
  }

  // ---------------------------------------------------------------------------
  // What the others need

  /** Between the two worlds the other uploads keep their files, and all open files are kept. */
  ghost predicate SparesOthers(s: System, id: nat, w': World) {
    && w'.disk.Valid() && s.w.sequence <= w'.sequence
    && (forall j | 0 <= j < |s.conns| && j != id && s.conns[j].temp != "" ::
          var o := s.conns[j];
          o.temp in w'.disk.names && w'.disk.names[o.temp] == o.output && o.output in w'.disk.data
          && w'.disk.data[o.output] == o.past.payload)
    && (forall j | 0 <= j < |s.conns| && Serving(s.conns[j]) ::
          s.conns[j].input in w'.disk.data && w'.disk.data[s.conns[j].input] == s.w.disk.Contents(s.conns[j].input))
  }

  lemma OthersTidy(s: System, id: nat, w': World, j: nat)
    requires Orderly(s) && SparesOthers(s, id, w') && j < |s.conns| && j != id
    ensures Tidy(w', s.conns[j])
  {
    var o := s.conns[j];
    if o.temp != "" {
      assert OwnsTemp(s.w, o);
      var n: nat :| n <= s.w.sequence && o.temp == TempName(o.fd, n);
      assert n <= w'.sequence;
    }
  }

  /** Put together: the others are spared, and the moved connection is in order. */
  lemma StillOrderly(s: System, id: nat, w': World, c': Conn)
    requires id < |s.conns| && Orderly(s) && SparesOthers(s, id, w') && Tidy(w', c')
    requires c'.temp == "" || c'.temp !in OtherTemps(s.conns, id)
    requires Serving(c') ==> NotUploaded(Moved(s, id, w', c').conns, c'.input)
    requires c'.temp != "" ==>
               forall j | 0 <= j < |s.conns| && j != id && Serving(s.conns[j]) :: s.conns[j].input != c'.output
    ensures Orderly(Moved(s, id, w', c')) && KeepsOpen(s, w')
  {
    var s' := Moved(s, id, w', c');
    forall j | 0 <= j < |s'.conns|
      ensures Tidy(w', s'.conns[j])
    {
      if j != id {
        OthersTidy(s, id, w', j);
      }
    }
    hide Tidy;
    forall i, j | 0 <= i < j < |s'.conns| && s'.conns[i].temp != ""
      ensures s'.conns[i].temp != s'.conns[j].temp
    {
      if i == id {
        assert s.conns[j].temp != "" ==> s.conns[j].temp in OtherTemps(s.conns, id);
      } else if j == id {
        assert s.conns[i].temp in OtherTemps(s.conns, id);
      }
    }
  }

  // ---------------------------------------------------------------------------
  // The ways in which a handler changes the root

  /** Nothing changes in the root; a download may be opened, of a file that no upload writes to. */
  lemma QuietIsFine(s: System, id: nat, w': World, c': Conn)
    requires id < |s.conns| && Orderly(s) && Tidy(w', c')
    requires w'.disk == s.w.disk && w'.log == s.w.log && s.w.sequence <= w'.sequence
    requires c'.temp == s.conns[id].temp && (c'.temp != "" ==> c'.output == s.conns[id].output)
    requires Serving(c') ==> NotUploaded(s.conns, c'.input)
    ensures Fine(s, id, w', c', None)
  {
    QuietSpares(s, id, w');
    TempsSplit(s.conns, id);
    TempsMoved(s, id, w', c');
    if c'.temp != "" {
      OwnNotOther(s, id);
    }
    hide Tidy, SparesOthers;
    StillOrderly(s, id, w', c');
  }

  lemma QuietSpares(s: System, id: nat, w': World)
    requires id < |s.conns| && Orderly(s) && w'.disk == s.w.disk && s.w.sequence <= w'.sequence
    ensures SparesOthers(s, id, w')
  {
    forall j | 0 <= j < |s.conns|
      ensures Tidy(s.w, s.conns[j])
    {
    }
  }

  /** The own temporary file grows. */
  lemma GrowthIsFine(s: System, id: nat, bytes: string, c': Conn)
    requires id < |s.conns| && Orderly(s) && s.conns[id].temp != ""
    requires var c := s.conns[id]; c.transferred + |bytes| <= c.expected
    requires var c := s.conns[id];
             c' == c.(transferred := c.transferred + |bytes|, past := c'.past) && c'.past.asked == c.past.asked
             && c'.past.payload == c.past.payload + bytes
    ensures Fine(s, id, s.w.(disk := s.w.disk.Append(s.conns[id].output, bytes)), c', None)
  {
    var c, w' := s.conns[id], s.w.(disk := s.w.disk.Append(s.conns[id].output, bytes));
    assert Tidy(s.w, c);
    assert w'.disk.names == s.w.disk.names && w'.disk.data == s.w.disk.data[c.output := c.past.payload + bytes];
    assert w'.disk.Valid();
    assert SparesOthers(s, id, w') by {
      GrowthSpares(s, id, w');
    }
    assert Tidy(w', c') by {
      OwnedAfterGrowth(s.w, c, w', c');
    }
    TempsSplit(s.conns, id);
    TempsMoved(s, id, w', c');
    OwnNotOther(s, id);
    NoReaders(s, id);
    hide Tidy, SparesOthers, Disk.Append;
    StillOrderly(s, id, w', c');
    SameStore(s, Moved(s, id, w', c'), c.output);
  }

  lemma GrowthSpares(s: System, id: nat, w': World)
    requires id < |s.conns| && Orderly(s) && s.conns[id].temp != "" && w'.disk.Valid() && w'.sequence == s.w.sequence
    requires w'.disk.names == s.w.disk.names && w'.disk.data.Keys == s.w.disk.data.Keys
    requires forall i | i in s.w.disk.data && i != s.conns[id].output :: w'.disk.data[i] == s.w.disk.data[i]
    ensures SparesOthers(s, id, w')
  {
    forall j | 0 <= j < |s.conns| && j != id && s.conns[j].temp != ""
      ensures s.conns[j].output != s.conns[id].output
      ensures OwnsTemp(s.w, s.conns[j])
    {
      assert Tidy(s.w, s.conns[j]) && Tidy(s.w, s.conns[id]);
      assert s.conns[j].temp != s.conns[id].temp;
    }
    forall j | 0 <= j < |s.conns| && Serving(s.conns[j])
      ensures s.conns[j].input in s.w.disk.data && s.conns[j].input != s.conns[id].output
    {
      assert Tidy(s.w, s.conns[j]);
    }
  }

  lemma OwnedAfterGrowth(w: World, c: Conn, w': World, c': Conn)
    requires Tidy(w, c) && c.temp != "" && w'.disk.names == w.disk.names && w'.sequence == w.sequence && c'.WellFormed()
    requires c' == c.(transferred := c'.transferred, past := c'.past) && c'.past.asked == c.past.asked
    requires c'.transferred == |c'.past.payload| && c.output in w'.disk.data
    requires w'.disk.data[c.output] == c'.past.payload
    ensures Tidy(w', c')
  {
  }

  /** Nobody downloads what is being uploaded. */
  lemma NoReaders(s: System, id: nat)
    requires id < |s.conns| && Orderly(s) && s.conns[id].temp != ""
    ensures forall j | 0 <= j < |s.conns| && Serving(s.conns[j]) :: s.conns[j].input != s.conns[id].output
  {
    hide Tidy;
  }

  /** The store does not notice a change of one file that no stored name leads to. */
  lemma SameStore(s: System, s': System, file: FileId)
    requires s.w.disk.Valid() && s'.w.disk.Valid() && Temps(s.conns) == Temps(s'.conns)
    requires s'.w.disk.names == s.w.disk.names
    requires forall i | i in s.w.disk.data && i != file :: i in s'.w.disk.data && s'.w.disk.data[i] == s.w.disk.data[i]
    requires forall n | n in s.w.disk.names && s.w.disk.names[n] == file :: n in Temps(s.conns)
    ensures Store(s') == Store(s)
  {
    hide Temps;
  }

  /** What both removing and publishing the own temporary file leave to the others. */
  lemma NamesSpare(s: System, id: nat, w': World)
    requires id < |s.conns| && Orderly(s) && w'.disk.Valid() && w'.sequence == s.w.sequence
    requires w'.disk.data == s.w.disk.data
    requires forall n | n in OtherTemps(s.conns, id) && n in s.w.disk.names ::
               n in w'.disk.names && w'.disk.names[n] == s.w.disk.names[n]
    ensures SparesOthers(s, id, w')
  {
    forall j | 0 <= j < |s.conns| && j != id && s.conns[j].temp != ""
      ensures OwnsTemp(s.w, s.conns[j]) && s.conns[j].temp in OtherTemps(s.conns, id)
    {
      assert Tidy(s.w, s.conns[j]);
    }
    forall j | 0 <= j < |s.conns| && Serving(s.conns[j])
      ensures s.conns[j].input in s.w.disk.data
    {
      assert Tidy(s.w, s.conns[j]);
    }
  }

  /** The own temporary file is removed. */
  lemma RemovalIsFine(s: System, id: nat, c': Conn)
    requires id < |s.conns| && Orderly(s) && s.conns[id].temp != "" && c'.temp == "" && !Serving(c')
    requires Tidy(s.w.(disk := s.w.disk.Remove(s.conns[id].temp)), c')
    ensures Fine(s, id, s.w.(disk := s.w.disk.Remove(s.conns[id].temp)), c', None)
  {
    var temp, w' := s.conns[id].temp, s.w.(disk := s.w.disk.Remove(s.conns[id].temp));
    OwnNotOther(s, id);
    assert w'.disk.Valid();
    NamesSpare(s, id, w');
    hide Tidy, SparesOthers;
    StillOrderly(s, id, w', c');
    TempsSplit(s.conns, id);
    TempsMoved(s, id, w', c');
    hide Orderly;
    StoreWithout(s, Moved(s, id, w', c'), temp);
  }

  lemma StoreWithout(s: System, s': System, temp: string)
    requires s.w.disk.Valid() && s'.w.disk.Valid() && s'.w.disk.names == s.w.disk.names - {temp}
    requires s'.w.disk.data == s.w.disk.data
    requires Temps(s.conns) == Temps(s'.conns) + {temp}
    ensures Store(s') == Store(s)
  {
    hide Temps;
  }

  /** The own temporary file is published under a name that is no other upload's. */
  lemma PublicationIsFine(s: System, id: nat, c': Conn)
    requires id < |s.conns| && Orderly(s) && s.conns[id].temp != "" && c'.temp == "" && !Serving(c')
    requires s.conns[id].final !in OtherTemps(s.conns, id)
    requires Tidy(Published(s.w, s.conns[id]), c')
    ensures Fine(s, id, Published(s.w, s.conns[id]), c', Some(Commit(s.conns[id].final, s.conns[id].past.payload)))
  {
    var c, w' := s.conns[id], Published(s.w, s.conns[id]);
    OwnNotOther(s, id);
    assert Tidy(s.w, c);
    assert w'.disk.Valid();
    NamesSpare(s, id, w');
    hide Tidy, SparesOthers;
    StillOrderly(s, id, w', c');
    TempsSplit(s.conns, id);
    TempsMoved(s, id, w', c');
    hide Orderly;
    StoreWith(s, Moved(s, id, w', c'), c);
  }

  /** The world after the rename of a complete upload. */
  function Published(w: World, c: Conn): World {
    if c.temp in w.disk.names then
      w.(disk := w.disk.Rename(c.temp, c.final),
         log := w.log + [Commit(c.final, w.disk.Contents(w.disk.names[c.temp]))])
    else w
  }

  lemma StoreWith(s: System, s': System, c: Conn)
    requires s.w.disk.Valid() && s'.w.disk.Valid() && OwnsTemp(s.w, c) && c.temp !in Temps(s'.conns)
    requires s'.w.disk == s.w.disk.Rename(c.temp, c.final)
    requires Temps(s.conns) == Temps(s'.conns) + {c.temp} && c.final !in Temps(s'.conns)
    ensures Store(s') == Store(s)[c.final := c.past.payload]
  {
    hide Temps, TempName;
  }

  /** A new temporary file is opened where there is none. */
  lemma CreationIsFine(s: System, id: nat, c': Conn)
    requires id < |s.conns| && Orderly(s) && s.conns[id].temp == "" && !Serving(c') && c'.temp != ""
    requires c'.temp !in s.w.disk.names && c'.output == s.w.disk.Truncate(c'.temp).1
    requires Tidy(Created(s.w, c'.temp), c')
    ensures Fine(s, id, Created(s.w, c'.temp), c', None)
  {
    var w' := Created(s.w, c'.temp);
    OthersInUse(s, id);
    assert w'.disk.names == s.w.disk.names[c'.temp := s.w.disk.next];
    assert w'.disk.data == s.w.disk.data[s.w.disk.next := ""];
    assert w'.disk.Valid();
    assert SparesOthers(s, id, w') by {
      CreationSpares(s, id, w', c'.temp);
    }
    hide Tidy, SparesOthers, Disk.Truncate;
    StillOrderly(s, id, w', c');
    TempsSplit(s.conns, id);
    TempsMoved(s, id, w', c');
    hide Orderly;
    StoreBeside(s, Moved(s, id, w', c'), c'.temp);
  }

  function Created(w: World, temp: string): World {
    World(w.disk.Truncate(temp).0, w.sequence + 1, w.log)
  }

  /** Temporary files and open files are there. */
  lemma OthersInUse(s: System, id: nat)
    requires Orderly(s) && id < |s.conns|
    ensures forall n | n in OtherTemps(s.conns, id) :: n in s.w.disk.names
    ensures forall j | 0 <= j < |s.conns| && Serving(s.conns[j]) :: s.conns[j].input in s.w.disk.data
  {
    forall j | 0 <= j < |s.conns|
      ensures s.conns[j].temp != "" ==> s.conns[j].temp in s.w.disk.names
      ensures Serving(s.conns[j]) ==> s.conns[j].input in s.w.disk.data
    {
      assert Tidy(s.w, s.conns[j]);
    }
  }

  lemma CreationSpares(s: System, id: nat, w': World, temp: string)
    requires id < |s.conns| && Orderly(s) && w'.disk.Valid() && s.w.sequence <= w'.sequence && temp !in s.w.disk.names
    requires w'.disk.names == s.w.disk.names[temp := s.w.disk.next]
    requires w'.disk.data == s.w.disk.data[s.w.disk.next := ""]
    ensures SparesOthers(s, id, w')
  {
    forall j | 0 <= j < |s.conns|
      ensures Tidy(s.w, s.conns[j])
    {
    }
  }

  lemma StoreBeside(s: System, s': System, temp: string)
    requires s.w.disk.Valid() && s'.w.disk.Valid() && temp !in s.w.disk.names
    requires s'.w.disk.names == s.w.disk.names[temp := s.w.disk.next]
    requires s'.w.disk.data == s.w.disk.data[s.w.disk.next := ""]
    requires Temps(s'.conns) == Temps(s.conns) + {temp}
    ensures Store(s') == Store(s)
  {
    hide Temps;
  }

  // ---------------------------------------------------------------------------
  // Handler calls and their guards

  /** One call of a handler for a live connection. */
  datatype Call =
    | Reading(recvs: seq<RecvOutcome>, files: FileOutcomes)
    | Writing(sends: seq<SendOutcome>, files: FileOutcomes)
    | Closing

  function Make(w: World, c: Conn, call: Call): (r: Step)
    requires c.WellFormed() && c.Live()
    ensures r.c.WellFormed()
  {
    match call
    case Reading(recvs, files) => Readable(w, c, recvs, files)
    case Writing(sends, files) => Writable(w, c, sends, files)
    case Closing => CloseClient(w, c)
  }

  /** The request that the next bytes complete, if they complete a valid one. */
  function Requested(c: Conn, bytes: string): Option<Request> {
    var all := c.request + bytes;
    var newline := Find(all, '\n');
    if newline + 1 != |all| || newline > MAX_REQUEST_LINE then None
    else
      match ParseRequest(all[..newline])
      case Rejected(_) => None
      case Accepted(request) => Some(request)
  }

  predicate Opens(files: FileOutcomes) {
    files.found && files.canOpen && files.canSize && files.canSeek
  }

  predicate Publishes(files: FileOutcomes) {
    files.canClose && files.canRename
  }

  /** A download is not of an unfinished upload, and a temporary file is not opened where something is stored. */
  predicate RequestGuard(s: System, id: nat, request: Request, files: FileOutcomes)
    requires id < |s.conns| && s.conns[id].Live()
  {
    match request
    case Get(name) => Opens(files) ==> name !in Temps(s.conns)
    case Put(_, _) => TempName(s.conns[id].fd, s.w.sequence + 1) !in s.w.disk.names
  }

  /** The guard of a handler call; a complete upload is not committed under the temporary name of another one. */
  predicate Guard(s: System, id: nat, call: Call)
    requires id < |s.conns| && s.conns[id].WellFormed() && s.conns[id].Live()
  {
    var c := s.conns[id];
    match call
    case Reading(recvs, files) =>
      Settled(recvs).Data? ==>
        var bytes := Settled(recvs).bytes;
        && (c.state.AwaitingRequest? && Requested(c, bytes).Some? ==>
              RequestGuard(s, id, Requested(c, bytes).value, files))
        && (c.state.ReceivingFile? && c.transferred + |bytes| == c.expected && files.canWrite && Publishes(files) ==>
              c.final !in OtherTemps(s.conns, id))
    case Writing(sends, files) =>
      c.state.SendingReady? && c.expected == 0 && FlushPending(c, sends).result.Drained? && Publishes(files) ==>
        c.final !in OtherTemps(s.conns, id)
    case Closing => true
  }

  /** The commit that a handler has made, which must be of the whole payload of its own connection. */
  function CommitMade(w: World, r: Step): Option<Commit> {
    if r.w.log == w.log then None else Some(Commit(r.c.final, r.c.past.payload))
  }

  /** Order is kept, and what is committed, if anything, is the whole payload of the connection. */
  ghost predicate FineStep(s: System, id: nat, r: Step)
    requires id < |s.conns| && s.w.disk.Valid()
  {
    && Fine(s, id, r.w, r.c, CommitMade(s.w, r)) && !IsServing(r.c)
    && (r.w.log != s.w.log ==> r.c.past.asked == Some(Put(r.c.final, |r.c.past.payload|)))
  }

  /** Nothing is committed, and a download that begins serves what is stored. */
  ghost predicate FineStart(s: System, id: nat, r: Step)
    requires id < |s.conns| && s.w.disk.Valid()
  {
    Fine(s, id, r.w, r.c, None) && r.w.log == s.w.log && (Serving(r.c) ==> ServesStored(s, r.c))
  }

  /** A handler keeps order and open files, commits its own payload at most, and serves only what is stored. */
  ghost predicate Harmless(s: System, id: nat, call: Call)
    requires id < |s.conns| && s.conns[id].WellFormed() && s.conns[id].Live() && s.w.disk.Valid()
  {
    var c, r := s.conns[id], Make(s.w, s.conns[id], call);
    && Fine(s, id, r.w, r.c, CommitMade(s.w, r))
    && (r.w.log != s.w.log ==> r.c.past.asked == Some(Put(r.c.final, |r.c.past.payload|)))
    && (Serving(r.c) && !IsServing(c) ==> ServesStored(s, r.c))
  }

  ghost predicate ServesStored(s: System, c: Conn)
    requires s.w.disk.Valid()
  {
    && c.past.asked.Some? && c.input in s.w.disk.data
    && ServedFrom(Store(s), c.past.asked.value.filename, s.w.disk.data[c.input])
    && c.expected == |s.w.disk.data[c.input]|
  }

  // ---------------------------------------------------------------------------
  // What each handler does to the root

  lemma RefusalEffect(w: World, c: Conn, reason: string)
    requires c.WellFormed() && c.window == ""
    ensures var r := QueueError(w, c, reason);
            && r.w == RemoveTemporary(w, c) && r.c.temp == "" && r.c.state.SendingError? && r.c.past == c.past
            && r.c.fd == c.fd
  {
    hide ErrorLine;
  }

  lemma GetEffect(w: World, c: Conn, name: string, files: FileOutcomes)
    requires c.WellFormed() && c.window == "" && c.temp == ""
    ensures var r := StartGet(w, c, name, files);
            && r.w == w && r.c.temp == "" && r.c.fd == c.fd && r.c.past.asked == c.past.asked
            && if Opens(files) && name in w.disk.names then
                 && r.c.state.SendingGetHeader? && r.c.input == w.disk.names[name]
                 && r.c.expected == |w.disk.Contents(r.c.input)| && r.c.pending == OkLine(r.c.expected)
               else r.c.state.SendingError?
  {
    hide OkLine, ErrorLine, Disk.Contents;
  }

  lemma PutEffect(w: World, c: Conn, name: string, size: nat, files: FileOutcomes)
    requires c.WellFormed() && c.window == "" && c.Live()
    ensures var r := StartPut(w, c, name, size, files); var temp := TempName(c.fd, w.sequence + 1);
            && r.c.fd == c.fd && r.c.past == c.past
            && if files.canCreate then
                 && r.w == Created(w, temp) && r.c.temp == temp && r.c.output == w.disk.Truncate(temp).1
                 && r.c.state.SendingReady? && r.c.transferred == 0 && r.c.expected == size && r.c.final == name
               else
                 r.w == World(w.disk.Remove(temp), w.sequence + 1, w.log) && r.c.temp == "" && r.c.state.SendingError?
  {
    var temp := TempName(c.fd, w.sequence + 1);
    assert temp != "";
    hide TempName, ErrorLine, READY_LINE, Disk.Truncate, Disk.Remove;
  }

  lemma NoRequestEffect(w: World, c: Conn, bytes: string, files: FileOutcomes)
    requires c.WellFormed() && c.window == "" && c.Live() && c.state.AwaitingRequest? && c.temp == ""
    requires Requested(c, bytes).None?
    ensures var r := RequestData(w, c, bytes, files);
            && r.w == w && r.c.temp == "" && r.c.fd == c.fd && r.c.past.payload == c.past.payload
            && (r.c.state.AwaitingRequest? || r.c.state.SendingError?)
  {
    hide Find, ParseRequest, ErrorLine, StartRequest;
  }

  /** A request is carried out by a connection that differs only in what it remembers. */
  function Asking(w: World, c: Conn, bytes: string, request: Request, files: FileOutcomes): Conn {
    c.(request := "", past := c.past.Hears(bytes).Asks(request, w, files))
  }

  lemma RequestEffect(w: World, c: Conn, bytes: string, files: FileOutcomes)
    requires c.WellFormed() && c.window == "" && c.Live() && c.state.AwaitingRequest? && Requested(c, bytes).Some?
    ensures var request := Requested(c, bytes).value;
            && Asking(w, c, bytes, request, files).WellFormed() && ValidRequest(request)
            && RequestData(w, c, bytes, files) == StartRequest(w, Asking(w, c, bytes, request, files), request, files)
  {
    hide Find, ErrorLine, StartRequest, SafeFilename;
    var all := c.request + bytes;
    assert ParseRequest(all[..Find(all, '\n')]).Accepted?;
    hide ParseRequest;
  }

  lemma CompleteEffect(w: World, c: Conn, files: FileOutcomes)
    requires c.WellFormed() && c.window == "" && c.temp in w.disk.names && c.temp != ""
    ensures var r := CompleteUpload(w, c, files);
            && r.c.temp == "" && r.c.fd == c.fd && r.c.past.payload == c.past.payload && r.c.past.asked == c.past.asked
            && r.c.final == c.final
            && if Publishes(files) then r.w == Published(w, c) && r.c.state.SendingResult?
               else r.w == w.(disk := w.disk.Remove(c.temp)) && r.c.state.SendingError?
  {
    hide OkLine, ErrorLine, Disk.Rename, Disk.Remove, Disk.Contents;
  }

  // ---------------------------------------------------------------------------
  // A handler that meets its guard is harmless

  lemma Untouched(w: World, c: Conn)
    requires c.WellFormed() && c.temp == "" && !(c.Live() && (c.state.SendingReady? || c.state.ReceivingFile?))
    requires (c.Live() && c.state.AwaitingRequest? ==> c.past.payload == "") && !Serving(c)
    ensures Tidy(w, c)
  {
  }

  lemma TidyParts(s: System, id: nat)
    requires Orderly(s) && id < |s.conns|
    ensures var c := s.conns[id];
            && c.WellFormed() && Tidy(s.w, c)
            && (c.temp != "" ==>
                 && c.temp in s.w.disk.names && s.w.disk.names[c.temp] == c.output
                 && c.output in s.w.disk.data && s.w.disk.data[c.output] == c.past.payload
                 && c.transferred == |c.past.payload| && c.past.asked == Some(Put(c.final, c.expected)))
            && (c.state.AwaitingRequest? || c.state.SendingError? || c.state.SendingResult? || IsServing(c) ==>
                  c.temp == "")
            && (c.Live() && (c.state.SendingReady? || c.state.ReceivingFile?) ==> c.temp != "")
  {
    hide TempName;
  }

  lemma NotUploadedIfStored(s: System, name: string)
    requires Orderly(s) && name in s.w.disk.names && name !in Temps(s.conns)
    ensures NotUploaded(s.conns, s.w.disk.names[name])
    ensures name in Store(s) && Store(s)[name] == s.w.disk.data[s.w.disk.names[name]]
  {
    forall j | 0 <= j < |s.conns| && s.conns[j].temp != ""
      ensures s.conns[j].output != s.w.disk.names[name]
    {
      TidyParts(s, j);
      assert s.conns[j].temp in Temps(s.conns);
    }
  }

  lemma OpenedTidy(w: World, c: Conn)
    requires c.WellFormed() && c.temp == "" && c.state.SendingGetHeader? && c.input in w.disk.data
    ensures Tidy(w, c)
  {
  }

  lemma GetIsHarmless(s: System, id: nat, c1: Conn, name: string, files: FileOutcomes)
    requires Orderly(s) && id < |s.conns| && s.conns[id].Live() && s.conns[id].state.AwaitingRequest?
    requires c1.WellFormed() && c1.window == "" && c1.temp == "" && c1.past.asked == Some(Get(name))
    requires Opens(files) ==> name !in Temps(s.conns)
    ensures FineStart(s, id, StartGet(s.w, c1, name, files))
  {
    var r := StartGet(s.w, c1, name, files);
    GetEffect(s.w, c1, name, files);
    TidyParts(s, id);
    hide StartGet, Orderly, Tidy, Fine, NotUploaded, Store, OkLine;
    if r.c.state.SendingGetHeader? {
      NotUploadedIfStored(s, name);
      NamedFile(s, name);
      OpenedTidy(s.w, r.c);
    } else {
      Untouched(s.w, r.c);
    }
    QuietIsFine(s, id, s.w, r.c);
  }

  lemma NamedFile(s: System, name: string)
    requires Orderly(s) && name in s.w.disk.names
    ensures s.w.disk.names[name] in s.w.disk.data
  {
    hide Tidy;
  }

  lemma PutIsHarmless(s: System, id: nat, c1: Conn, name: string, size: nat, files: FileOutcomes)
    requires Orderly(s) && id < |s.conns| && s.conns[id].Live() && s.conns[id].state.AwaitingRequest?
    requires c1.WellFormed() && c1.window == "" && c1.Live() && c1.fd == s.conns[id].fd && c1.past.payload == ""
    requires c1.past.asked == Some(Put(name, size)) && size <= MAX_UPLOAD_BYTES
    requires TempName(c1.fd, s.w.sequence + 1) !in s.w.disk.names
    ensures FineStart(s, id, StartPut(s.w, c1, name, size, files))
  {
    SilentPayload(s, id);
    hide StartPut, Orderly, FineStart, TempName, Conn.WellFormed;
    if files.canCreate {
      CreatingIsFine(s, id, c1, name, size, files);
    } else {
      NotCreatingIsFine(s, id, c1, name, size, files);
    }
  }

  lemma CreatingIsFine(s: System, id: nat, c1: Conn, name: string, size: nat, files: FileOutcomes)
    requires Orderly(s) && id < |s.conns| && s.conns[id].temp == "" && files.canCreate
    requires c1.WellFormed() && c1.window == "" && c1.Live() && c1.past.payload == ""
    requires c1.past.asked == Some(Put(name, size)) && size <= MAX_UPLOAD_BYTES
    requires TempName(c1.fd, s.w.sequence + 1) !in s.w.disk.names
    ensures FineStart(s, id, StartPut(s.w, c1, name, size, files))
  {
    var r, temp := StartPut(s.w, c1, name, size, files), TempName(c1.fd, s.w.sequence + 1);
    PutEffect(s.w, c1, name, size, files);
    assert temp != "";
    hide StartPut, Orderly, Tidy, Fine, ServesStored, Conn.WellFormed;
    StartedTidy(s.w, r.c, temp);
    hide TempName, Created;
    CreationIsFine(s, id, r.c);
    CreatedLog(s.w, temp);
  }

  lemma NotCreatingIsFine(s: System, id: nat, c1: Conn, name: string, size: nat, files: FileOutcomes)
    requires Orderly(s) && id < |s.conns| && s.conns[id].temp == "" && !files.canCreate
    requires c1.WellFormed() && c1.window == "" && c1.Live()
    requires TempName(c1.fd, s.w.sequence + 1) !in s.w.disk.names
    ensures FineStart(s, id, StartPut(s.w, c1, name, size, files))
  {
    var r, temp := StartPut(s.w, c1, name, size, files), TempName(c1.fd, s.w.sequence + 1);
    PutEffect(s.w, c1, name, size, files);
    assert s.w.disk.Remove(temp) == s.w.disk;
    hide StartPut, Orderly, Tidy, Fine, ServesStored, Conn.WellFormed, TempName;
    Untouched(r.w, r.c);
    QuietIsFine(s, id, r.w, r.c);
  }

  lemma CreatedLog(w: World, temp: string)
    ensures Created(w, temp).log == w.log
  {
  }

  lemma StartedTidy(w: World, c: Conn, temp: string)
    requires c.WellFormed() && c.Live() && c.state.SendingReady? && c.transferred == 0 && c.past.payload == ""
    requires c.temp == temp == TempName(c.fd, w.sequence + 1) && c.output == w.disk.Truncate(temp).1
    requires c.past.asked == Some(Put(c.final, c.expected)) && c.expected <= MAX_UPLOAD_BYTES
    ensures Tidy(Created(w, temp), c)
  {
  }

  lemma RequestIsHarmless(s: System, id: nat, bytes: string, files: FileOutcomes)
    requires Orderly(s) && id < |s.conns| && s.conns[id].Live() && s.conns[id].state.AwaitingRequest?
    requires s.conns[id].WellFormed()
    requires Requested(s.conns[id], bytes).Some? ==> RequestGuard(s, id, Requested(s.conns[id], bytes).value, files)
    ensures FineStart(s, id, RequestData(s.w, s.conns[id], bytes, files))
  {
    hide RequestData, Orderly, Requested, FineStart, TempName, Temps, Opens, Conn.WellFormed;
    match Requested(s.conns[id], bytes) {
      case None => NoRequestIsHarmless(s, id, bytes, files);
      case Some(Get(name)) => GetRequestIsHarmless(s, id, bytes, name, files);
      case Some(Put(name, size)) => PutRequestIsHarmless(s, id, bytes, name, size, files);
    }
  }

  lemma GetRequestIsHarmless(s: System, id: nat, bytes: string, name: string, files: FileOutcomes)
    requires Orderly(s) && id < |s.conns| && s.conns[id].Live() && s.conns[id].state.AwaitingRequest?
    requires s.conns[id].WellFormed()
    requires Requested(s.conns[id], bytes) == Some(Get(name)) && (Opens(files) ==> name !in Temps(s.conns))
    ensures FineStart(s, id, RequestData(s.w, s.conns[id], bytes, files))
  {
    SilentPayload(s, id);
    RequestEffect(s.w, s.conns[id], bytes, files);
    hide RequestData, Orderly, Requested, StartGet, FineStart, Temps, ValidRequest, Opens, Conn.WellFormed;
    GetIsHarmless(s, id, Asking(s.w, s.conns[id], bytes, Get(name), files), name, files);
  }

  lemma PutRequestIsHarmless(s: System, id: nat, bytes: string, name: string, size: nat, files: FileOutcomes)
    requires Orderly(s) && id < |s.conns| && s.conns[id].Live() && s.conns[id].state.AwaitingRequest?
    requires s.conns[id].WellFormed()
    requires Requested(s.conns[id], bytes) == Some(Put(name, size))
    requires TempName(s.conns[id].fd, s.w.sequence + 1) !in s.w.disk.names
    ensures FineStart(s, id, RequestData(s.w, s.conns[id], bytes, files))
  {
    SilentPayload(s, id);
    RequestEffect(s.w, s.conns[id], bytes, files);
    PutSize(Put(name, size));
    hide RequestData, Orderly, Requested, StartPut, FineStart, TempName, ValidRequest, Conn.WellFormed;
    PutIsHarmless(s, id, Asking(s.w, s.conns[id], bytes, Put(name, size), files), name, size, files);
  }

  lemma NoRequestIsHarmless(s: System, id: nat, bytes: string, files: FileOutcomes)
    requires Orderly(s) && id < |s.conns| && s.conns[id].Live() && s.conns[id].state.AwaitingRequest?
    requires s.conns[id].WellFormed() && Requested(s.conns[id], bytes).None?
    ensures FineStart(s, id, RequestData(s.w, s.conns[id], bytes, files))
  {
    var c := s.conns[id];
    SilentPayload(s, id);
    NoRequestEffect(s.w, c, bytes, files);
    var r := RequestData(s.w, c, bytes, files);
    hide RequestData, Orderly, Tidy, Fine, Requested, ServesStored, Conn.WellFormed;
    Untouched(s.w, r.c);
    QuietIsFine(s, id, s.w, r.c);
  }

  lemma PutSize(request: Request)
    requires ValidRequest(request) && request.Put?
    ensures request.size <= MAX_UPLOAD_BYTES
  {
  }

  lemma SilentPayload(s: System, id: nat)
    requires Orderly(s) && id < |s.conns| && s.conns[id].Live() && s.conns[id].state.AwaitingRequest?
    ensures s.conns[id].past.payload == "" && s.conns[id].window == "" && s.conns[id].temp == ""
  {
    TidyParts(s, id);
  }

  // ---------------------------------------------------------------------------
  // Uploads

  /** The own temporary file is given up. */
  lemma RefusalIsFine(s: System, id: nat, c1: Conn, reason: string)
    requires Orderly(s) && id < |s.conns| && s.conns[id].Live() && s.conns[id].temp != ""
    requires c1.WellFormed() && c1.window == "" && c1.temp == s.conns[id].temp && c1.fd == s.conns[id].fd
    ensures var r := QueueError(s.w, c1, reason); FineStep(s, id, r) && Fine(s, id, r.w, r.c, None)
  {
    RefusalEffect(s.w, c1, reason);
    var r := QueueError(s.w, c1, reason);
    hide QueueError, Orderly, Tidy, Fine, Disk.Remove;
    Untouched(r.w, r.c);
    RemovalIsFine(s, id, r.c);
  }

  /** The last handler of an upload: it publishes the payload or gives it up. */
  lemma CompletionIsFine(s: System, id: nat, c1: Conn, files: FileOutcomes)
    requires Orderly(s) && id < |s.conns| && s.conns[id].Live() && s.conns[id].temp != "" && s.conns[id].WellFormed()
    requires c1.WellFormed() && c1.window == "" && c1.fd == s.conns[id].fd && c1.temp == s.conns[id].temp
    requires c1.final == s.conns[id].final && c1.past.payload == s.conns[id].past.payload
    requires c1.past.asked == s.conns[id].past.asked
    requires s.conns[id].transferred == s.conns[id].expected
    requires Publishes(files) ==> s.conns[id].final !in OtherTemps(s.conns, id)
    ensures FineStep(s, id, CompleteUpload(s.w, c1, files))
  {
    TidyParts(s, id);
    CompleteEffect(s.w, c1, files);
    var r := CompleteUpload(s.w, c1, files);
    hide CompleteUpload, Orderly, Tidy, Fine, Disk.Remove, Published, OtherTemps, Conn.WellFormed;
    Untouched(r.w, r.c);
    if Publishes(files) {
      PublishedSame(s.w, s.conns[id], c1);
      PublicationIsFine(s, id, r.c);
    } else {
      RemovalIsFine(s, id, r.c);
    }
  }

  lemma PublishedSame(w: World, c: Conn, c1: Conn)
    requires c1.temp == c.temp && c1.final == c.final && c.temp in w.disk.names && w.disk.names[c.temp] in w.disk.data
    requires w.disk.data[w.disk.names[c.temp]] == c.past.payload
    ensures Published(w, c1) == Published(w, c) && Published(w, c).log == w.log + [Commit(c.final, c.past.payload)]
  {
    hide Disk.Rename;
  }

  lemma StillOthers(s: System, id: nat, w': World, c': Conn)
    requires id < |s.conns|
    ensures OtherTemps(Moved(s, id, w', c').conns, id) == OtherTemps(s.conns, id)
  {
    OthersUnmoved(s.conns, id, c');
  }

  lemma FineOrderly(s: System, id: nat, w': World, c': Conn, commit: Option<Commit>)
    requires id < |s.conns| && s.w.disk.Valid() && Fine(s, id, w', c', commit)
    ensures Orderly(Moved(s, id, w', c')) && (commit.None? ==> w'.log == s.w.log)
  {
  }

  /** Bytes that do not fit: what fits is written, and then the upload is given up. */
  lemma ExcessIsFine(s: System, id: nat, bytes: string, files: FileOutcomes)
    requires Orderly(s) && id < |s.conns| && s.conns[id].Live() && s.conns[id].state.ReceivingFile?
    requires s.conns[id].WellFormed()
    requires s.conns[id].temp != "" && |bytes| > s.conns[id].expected - s.conns[id].transferred && files.canWrite
    ensures FineStep(s, id, UploadData(s.w, s.conns[id], bytes, files))
  {
    var c := s.conns[id];
    var fits := bytes[..c.expected - c.transferred];
    var w1, c1 := Appended(s.w, c, fits), Grown(c, fits, files);
    var c2 := c.(transferred := c.expected, past := c.past.HearsPayload(bytes, files));
    WriteOverflows(s.w, c, bytes, files);
    GrowthIsFine(s, id, fits, c1);
    FineOrderly(s, id, w1, c1, None);
    assert c2.WellFormed() && c2.window == "";
    GrownStill(c, fits, files);
    hide UploadData, Orderly, Fine, Appended, Grown, QueueError, FineStep, Conn.WellFormed;
    GivesUpAfter(s, id, w1, c1, c2);
  }

  lemma GrownStill(c: Conn, bytes: string, files: FileOutcomes)
    ensures var c1 := Grown(c, bytes, files);
            && c1.Live() == c.Live() && c1.temp == c.temp && c1.fd == c.fd && c1.state == c.state && c1.final == c.final
            && c1.transferred == c.transferred + |bytes| && c1.expected == c.expected
  {
  }

  lemma GivesUpAfter(s: System, id: nat, w1: World, c1: Conn, c2: Conn)
    requires id < |s.conns| && Orderly(s) && Fine(s, id, w1, c1, None) && Orderly(Moved(s, id, w1, c1))
    requires w1.log == s.w.log
    requires c1.Live() && c1.temp != "" && c2.WellFormed() && c2.window == "" && c2.temp == c1.temp && c2.fd == c1.fd
    requires !IsServing(s.conns[id])
    ensures FineStep(s, id, QueueError(w1, c2, "protocol-error"))
  {
    var r := QueueError(w1, c2, "protocol-error");
    assert s.w.disk.Valid();
    hide Orderly, Fine, QueueError, Conn.WellFormed;
    RefusalIsFine(Moved(s, id, w1, c1), id, c2, "protocol-error");
    FineThen(s, id, w1, c1, r.w, r.c, None);
  }

  lemma LastBytesAreFine(s: System, id: nat, bytes: string, files: FileOutcomes)
    requires Orderly(s) && id < |s.conns| && s.conns[id].Live() && s.conns[id].state.ReceivingFile?
    requires s.conns[id].WellFormed()
    requires s.conns[id].temp != "" && s.conns[id].transferred + |bytes| == s.conns[id].expected && files.canWrite
    requires Publishes(files) ==> s.conns[id].final !in OtherTemps(s.conns, id)
    ensures FineStep(s, id, UploadData(s.w, s.conns[id], bytes, files))
  {
    var c := s.conns[id];
    var w1, c1 := Appended(s.w, c, bytes), Grown(c, bytes, files);
    WriteCompletes(s.w, c, bytes, files);
    GrowthIsFine(s, id, bytes, c1);
    FineOrderly(s, id, w1, c1, None);
    StillOthers(s, id, w1, c1);
    assert c1.WellFormed() && c1.window == "";
    GrownStill(c, bytes, files);
    hide UploadData, Orderly, Fine, Appended, Grown, CompleteUpload, OtherTemps, Publishes, FineStep, Conn.WellFormed;
    CompletesAfter(s, id, w1, c1, files);
  }

  lemma CompletesAfter(s: System, id: nat, w1: World, c1: Conn, files: FileOutcomes)
    requires id < |s.conns| && Orderly(s) && Fine(s, id, w1, c1, None) && Orderly(Moved(s, id, w1, c1))
    requires w1.log == s.w.log
    requires c1.Live() && c1.temp != "" && c1.WellFormed() && c1.window == "" && c1.transferred == c1.expected
    requires Publishes(files) ==> c1.final !in OtherTemps(Moved(s, id, w1, c1).conns, id)
    requires !IsServing(s.conns[id])
    ensures FineStep(s, id, CompleteUpload(w1, c1, files))
  {
    var r := CompleteUpload(w1, c1, files);
    assert s.w.disk.Valid();
    hide Orderly, Fine, CompleteUpload, OtherTemps, Publishes, Conn.WellFormed;
    CompletionIsFine(Moved(s, id, w1, c1), id, c1, files);
    FineThen(s, id, w1, c1, r.w, r.c, CommitMade(s.w, r));
  }

  lemma FailureIsFine(s: System, id: nat, bytes: string, files: FileOutcomes)
    requires Orderly(s) && id < |s.conns| && s.conns[id].Live() && s.conns[id].state.ReceivingFile?
    requires s.conns[id].WellFormed()
    requires s.conns[id].temp != "" && !files.canWrite
    ensures FineStep(s, id, UploadData(s.w, s.conns[id], bytes, files))
  {
    WriteFails(s.w, s.conns[id], bytes, files);
    hide UploadData, Orderly, FineStep, Fine, QueueError;
    RefusalIsFine(s, id, s.conns[id].(past := s.conns[id].past.HearsPayload(bytes, files)), "storage-failure");
  }

  lemma MoreBytesAreFine(s: System, id: nat, bytes: string, files: FileOutcomes)
    requires Orderly(s) && id < |s.conns| && s.conns[id].state.ReceivingFile? && s.conns[id].temp != ""
    requires s.conns[id].WellFormed()
    requires s.conns[id].transferred + |bytes| < s.conns[id].expected && files.canWrite
    ensures FineStep(s, id, UploadData(s.w, s.conns[id], bytes, files))
  {
    var c := s.conns[id];
    WriteGoesOn(s.w, c, bytes, files);
    GrowthIsFine(s, id, bytes, Grown(c, bytes, files));
    AppendedLog(s.w, c, bytes);
    hide Orderly, Fine, UploadData;
  }

  lemma UploadIsHarmless(s: System, id: nat, bytes: string, files: FileOutcomes)
    requires Orderly(s) && id < |s.conns| && s.conns[id].Live() && s.conns[id].state.ReceivingFile?
    requires s.conns[id].WellFormed()
    requires var c := s.conns[id];
             c.transferred + |bytes| == c.expected && files.canWrite && Publishes(files) ==>
               c.final !in OtherTemps(s.conns, id)
    ensures FineStep(s, id, UploadData(s.w, s.conns[id], bytes, files))
  {
    var c := s.conns[id];
    TidyParts(s, id);
    hide UploadData, Orderly, Tidy, FineStep, OtherTemps, Publishes, Conn.WellFormed;
    if !files.canWrite {
      FailureIsFine(s, id, bytes, files);
    } else if c.transferred + |bytes| > c.expected {
      ExcessIsFine(s, id, bytes, files);
    } else if c.transferred + |bytes| == c.expected {
      LastBytesAreFine(s, id, bytes, files);
    } else {
      MoreBytesAreFine(s, id, bytes, files);
    }
  }

  lemma AppendedLog(w: World, c: Conn, bytes: string)
    ensures Appended(w, c, bytes).log == w.log
  {
  }
}
