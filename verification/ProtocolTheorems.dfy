/** The promises of the protocol, for every run of any number of clients: any chunking, broken
    connections, time-outs, cancellations and file failures included. */
module ProtocolTheorems {
  import opened Bytes
  import opened Streams
  import opened Records
  import opened Server
  import opened Framing
  import opened Protocol
  import opened ProtocolInvariant
  import opened ProtocolClient
  import opened ProtocolServer
  import opened ProtocolRuns
  import opened Announcements

  /** A state some run leads to. */
  ghost predicate Reachable(cfg: Config, w: World) {
    exists es: seq<Event> :: Exec(cfg, Init(cfg), es) == Some(w)
  }

  lemma ReachableIs(cfg: Config, w: World)
    requires Sound(cfg) && Reachable(cfg, w)
    ensures WorldInv(cfg, w)
  {
    hide WorldInv, Sound, Next;
    var es: seq<Event> :| Exec(cfg, Init(cfg), es) == Some(w);
    InitKeeps(cfg);
    RunKeeps(cfg, Init(cfg), es, w);
  }

  // ---------------------------------------------------------------------------------------
  // The database and the log
  // ---------------------------------------------------------------------------------------

  /** Two entries for the same record. */
  predicate SameRecord(a: Entry, b: Entry) { a.college == b.college && a.key == b.key }

  /** After entry `k` nobody but its own client put its key again. */
  predicate OwnSince(log: seq<Entry>, k: nat)
    requires k < |log|
  {
    forall j :: k < j < |log| && SameRecord(log[j], log[k]) ==> log[j].client == log[k].client
  }

  /** From entry `k` on its key was only put by its own client and right after an acknowledgement. */
  predicate CleanSince(log: seq<Entry>, k: nat)
    requires k < |log|
  {
    forall j :: k <= j < |log| && SameRecord(log[j], log[k]) ==>
      log[j].client == log[k].client && |log[j].names| == 1
  }

  /** Under the key of an entry a database holds the record of that entry or of a later one. */
  lemma {:induction false} DbHolds(log: seq<Entry>, k: nat) returns (j: nat)
    requires k < |log|
    ensures k <= j < |log| && SameRecord(log[j], log[k])
    ensures var db := Db(log, log[k].college); log[k].key in db && db[log[k].key] == log[j].record
    decreases |log|
  {
    var front, last := log[..|log| - 1], log[|log| - 1];
    if SameRecord(last, log[k]) {
      j := |log| - 1;
    } else {
      j := DbHolds(front, k);
    }
  }

  /** Nothing else is in it. */
  lemma {:induction false} DbComesFrom(log: seq<Entry>, college: int, key: string) returns (k: nat)
    requires key in Db(log, college)
    ensures k < |log| && log[k].college == college && log[k].key == key && log[k].record == Db(log, college)[key]
    decreases |log|
  {
    var last := log[|log| - 1];
    if last.college == college && last.key == key {
      k := |log| - 1;
    } else {
      k := DbComesFrom(log[..|log| - 1], college, key);
    }
  }

  // ---------------------------------------------------------------------------------------
  // What is put
  // ---------------------------------------------------------------------------------------

  /** Cancel safety and authentication at once: whatever is cancelled, broken or timed out and
      wherever, every record ever put ends with all the lines of one form of an entitled client,
      goes to that client's own college, and is the same in both stores. Nothing before those
      lines but names announced in vain, and all of it fits the server's record buffer. */
  lemma EveryPutIsAWholeForm(cfg: Config, w: World, k: nat)
    requires Sound(cfg) && Reachable(cfg, w) && k < |w.log|
    ensures w.log[k].client < |cfg.clients|
    ensures var e, c := w.log[k], cfg.clients[w.log[k].client];
            && Entitled(cfg, c) && |c.login| == 4 && e.college == CollegeNumber(c) && |e.record| <= MAXINFOSIZE
            && (exists j: nat, name ::
                  && j < |e.names| && |e.names[j]| >= 4 && name in c.forms && e.key == KeyOf(e.names[j])
                  && e.record == Pack(NameLines(e.names[j + 1..]) + c.forms[name])
                  && e.text == Flatten(NameLines(e.names[j + 1..]) + c.forms[name]))
  {
    hide Entitled, CollegeNumber, PutRegularly, Flatten, Pack, NameLines, KeyOf, Sound, Reachable, WorldInv;
    ReachableIs(cfg, w);
    GoodAt(cfg, w, k);
    var e, c := w.log[k], cfg.clients[w.log[k].client];
    var j: nat :| j < |e.names| && PutFrom(c, e, j);
    assert e.names[|e.names| - 1] in c.forms && LinesOf(c, e.names[|e.names| - 1]) == c.forms[e.names[|e.names| - 1]];
  }

  lemma GoodAt(cfg: Config, w: World, k: nat)
    requires WorldInv(cfg, w) && k < |w.log|
    ensures GoodEntry(cfg, w.log[k])
  {
    hide SessionInv, GoodEntry, HasPut;
  }

  // ---------------------------------------------------------------------------------------
  // What is marked
  // ---------------------------------------------------------------------------------------

  /** The step that marks a form sent: its session was accepted, waited for this form's
      acknowledgement, the put of this very exchange is in the log, and what it put is in the
      database, if its key was put cleanly since. */
  lemma MarkStep(cfg: Config, w: World, e: Event, w': World, p: nat, n: string)
    requires Sound(cfg) && Reachable(cfg, w) && Next(cfg, w, e) == Some(w')
    requires (p, n) in w'.sent && (p, n) !in w.sent
    ensures e.ClientActs? && e.i < |w.sessions|
    ensures var s := w.sessions[e.i];
            && s.owner == p && s.pc == Marking(n) && s.accepted
            && s.stored.Some? && s.stored.value < |w.log| && PutOf(w.log[s.stored.value], p, n)
            && w.log[s.stored.value].names == s.names && w'.log == w.log
            && (CleanSince(w.log, s.stored.value) ==>
                  && p < |cfg.clients| && |cfg.clients[p].login| == 4 && n in cfg.clients[p].forms && |n| >= 4
                  && Kept(cfg.clients[p], n, w'.log))
  {
    hide WorldInv, Sound, SessionInv, Next, ClientStep, Reachable, CleanSince, Kept, CollegeNumber, Faithful;
    OnlyClientsMark(cfg, w, e, w', (p, n));
    ReachableIs(cfg, w);
    var a := ClientActsIs(cfg, w, e.i, e.choice, w');
    InvOf(cfg, w, e.i);
    EmptyBuf(cfg, w, w.sessions[e.i].owner);
    MagicLength(cfg);
    ClientKeeps(cfg, w.sessions[e.i], w.sent, e.choice, w.log, a);
    IsAccepted(cfg, w.sessions[e.i], w.log);
    var k := w.sessions[e.i].stored.value;
    if CleanSince(w.log, k) { CleanIsKept(cfg, w, k); }
  }

  lemma OnlyClientsMark(cfg: Config, w: World, e: Event, w': World, mark: (nat, string))
    requires Next(cfg, w, e) == Some(w') && mark in w'.sent && mark !in w.sent
    ensures e.ClientActs?
  {
    hide ClientStep, ServerStep, Idle, Connected;
  }

  /** authenticate lets nobody past whom the server did not accept, and the server accepts only
      clients it has an enabled account with the same digest for. */
  lemma OnlyAcceptedGetOn(cfg: Config, w: World, i: nat)
    requires Sound(cfg) && Reachable(cfg, w) && i < |w.sessions|
    ensures var s := w.sessions[i];
            && s.owner < |cfg.clients|
            && (InLines(s.pc) && !s.pc.Closed? ==> s.accepted)
            && (s.accepted ==> Entitled(cfg, cfg.clients[s.owner]))
  {
    hide WorldInv, Sound, SessionInv, Reachable, Entitled;
    ReachableIs(cfg, w);
    InvOf(cfg, w, i);
    AdmittedOf(cfg, w.sessions[i], w.log);
  }

  lemma AdmittedOf(cfg: Config, s: Session, log: seq<Entry>)
    requires SessionInv(cfg, s, log)
    ensures s.owner < |cfg.clients| && Admitted(cfg, cfg.clients[s.owner], s)
  {
    hide Carried, Answered, InStep, Followed, Shaped, Settled, GoodClient, Admitted;
  }

  lemma IsAccepted(cfg: Config, s: Session, log: seq<Entry>)
    requires SessionInv(cfg, s, log) && InLines(s.pc) && !s.pc.Closed?
    ensures s.accepted
  {
    hide Carried, Answered, InStep, Followed, Shaped, Settled, GoodClient, Entitled;
  }

  /** The college's database maps the key of form `n` to the packing of the form, which prints as
      the text of the form. */
  predicate Kept(c: Client, n: string, log: seq<Entry>)
    requires |c.login| == 4 && |n| >= 4 && n in c.forms
  {
    var db := Db(log, CollegeNumber(c));
    KeyOf(n) in db && db[KeyOf(n)] == Pack(c.forms[n]) && Plain(db[KeyOf(n)]) == Some(Flatten(c.forms[n]))
  }

  /** The form announced by a put is stored, and stays so however often it is put again, as long as
      nobody else puts its key and no name is announced in vain before it. */
  lemma CleanIsKept(cfg: Config, w: World, k: nat)
    requires Sound(cfg) && WorldInv(cfg, w) && k < |w.log| && CleanSince(w.log, k)
    ensures w.log[k].client < |cfg.clients| && w.log[k].names != []
    ensures var c, n := cfg.clients[w.log[k].client], w.log[k].names[|w.log[k].names| - 1];
            && |c.login| == 4 && n in c.forms && |n| >= 4 && Faithful(c, w.log[k])
            && w.log[k].college == CollegeNumber(c) && Kept(c, n, w.log)
  {
    hide WorldInv, Sound, CollegeNumber, Faithful, Flatten, Pack, KeyOf, GoodEntry, FormFiles, Plain;
    assert SameRecord(w.log[k], w.log[k]);
    var c := FaithfulAt(cfg, w, k);
    var j := DbHolds(w.log, k);
    var d := FaithfulAt(cfg, w, j);
    FaithfulKey(c, w.log[k]);
    FaithfulKey(c, w.log[j]);
    var n, m := w.log[k].names[|w.log[k].names| - 1], w.log[j].names[|w.log[j].names| - 1];
    LongEnough(c, n);
    LongEnough(c, m);
    StoredLinesAgree(cfg, w.log[k].client, n);
  }

  lemma FaithfulAt(cfg: Config, w: World, k: nat) returns (c: Client)
    requires Sound(cfg) && WorldInv(cfg, w) && k < |w.log| && |w.log[k].names| == 1
    ensures w.log[k].client < |cfg.clients| && c == cfg.clients[w.log[k].client] && FormFiles(c.forms)
    ensures |c.login| == 4 && Faithful(c, w.log[k]) && w.log[k].college == CollegeNumber(c)
  {
    hide WorldInv, Sound, CollegeNumber, Faithful, GoodEntry, FormFiles;
    GoodAt(cfg, w, k);
    ClientOf(cfg, w.log[k]);
    CollegeOf(cfg, w.log[k]);
    FaithfulAlone(cfg, w.log[k]);
    c := cfg.clients[w.log[k].client];
  }

  /** Behind every form marked sent there is a put of that form's exchange, and as long as its key
      was put cleanly since, the database holds the form. */
  lemma SentIsStored(cfg: Config, w: World, p: nat, n: string)
    requires Sound(cfg) && Reachable(cfg, w) && (p, n) in w.sent
    ensures HasPut(w.log, p, n)
    ensures forall k :: 0 <= k < |w.log| && PutOf(w.log[k], p, n) && CleanSince(w.log, k) ==>
              && p < |cfg.clients| && |cfg.clients[p].login| == 4 && n in cfg.clients[p].forms && |n| >= 4
              && Faithful(cfg.clients[p], w.log[k]) && Kept(cfg.clients[p], n, w.log)
  {
    hide WorldInv, Sound, Reachable, Faithful, Kept, CleanSince, CollegeNumber;
    ReachableIs(cfg, w);
    SentHasPut(cfg, w, p, n);
    forall k | 0 <= k < |w.log| && PutOf(w.log[k], p, n) && CleanSince(w.log, k)
      ensures p < |cfg.clients| && |cfg.clients[p].login| == 4 && n in cfg.clients[p].forms && |n| >= 4
              && Faithful(cfg.clients[p], w.log[k]) && Kept(cfg.clients[p], n, w.log)
    {
      CleanIsKept(cfg, w, k);
    }
  }

  lemma CollegeOf(cfg: Config, e: Entry)
    requires GoodEntry(cfg, e)
    ensures |cfg.clients[e.client].login| == 4 && e.college == CollegeNumber(cfg.clients[e.client])
  {
    hide PutFrom, PutRegularly, Entitled;
  }

  lemma SentHasPut(cfg: Config, w: World, p: nat, n: string)
    requires WorldInv(cfg, w) && (p, n) in w.sent
    ensures HasPut(w.log, p, n)
  {
    hide SessionInv, GoodEntry, HasPut;
  }

  /** What the two stores hold of a form is the same text. */
  lemma StoredLinesAgree(cfg: Config, p: nat, n: string)
    requires Sound(cfg) && p < |cfg.clients| && n in cfg.clients[p].forms
    ensures Plain(Pack(cfg.clients[p].forms[n])) == Some(Flatten(cfg.clients[p].forms[n]))
  {
    var lines := cfg.clients[p].forms[n];
    assert GoodClient(cfg.clients[p]) && Sendable(lines);
    forall i | 0 <= i < |lines| ensures NulFree(lines[i]) { assert PlainLine(lines[i]); }
    PlainPack(lines);
  }

  /** When the put of an announced form is its own, exactly: with the server's files working and
      names of the standard length, if and only if no name was announced in vain since the last
      acknowledgement. */
  lemma RightExactlyWhen(cfg: Config, w: World, k: nat)
    requires Sound(cfg) && Reachable(cfg, w) && k < |w.log| && w.log[k].diskOk && StandardNames(w.log[k].names)
    ensures w.log[k].client < |cfg.clients|
    ensures Faithful(cfg.clients[w.log[k].client], w.log[k]) <==> |w.log[k].names| == 1
  {
    hide WorldInv, Reachable, Faithful, StandardNames, Sound, GoodEntry, FormFiles;
    ReachableIs(cfg, w);
    GoodAt(cfg, w, k);
    ClientOf(cfg, w.log[k]);
    ExactlyWhen(cfg, cfg.clients[w.log[k].client], w.log[k]);
  }

  lemma ClientOf(cfg: Config, e: Entry)
    requires Sound(cfg) && GoodEntry(cfg, e)
    ensures e.client < |cfg.clients| && FormFiles(cfg.clients[e.client].forms)
  {
    hide PutFrom, PutRegularly, Entitled, FormFiles;
    assert GoodClient(cfg.clients[e.client]);
  }

  // ---------------------------------------------------------------------------------------
  // Convergence
  // ---------------------------------------------------------------------------------------

  /** The database holds exactly these forms. */
  ghost predicate Mirrors(db: map<string, string>, forms: map<string, seq<string>>) {
    && (forall n :: n in forms ==> |n| >= 4 && KeyOf(n) in db && db[KeyOf(n)] == Pack(forms[n]))
    && (forall key :: key in db ==> exists n :: n in forms && |n| >= 4 && key == KeyOf(n))
  }

  /** So all databases that hold exactly the same forms are the same. */
  lemma MirrorsAlike(a: map<string, string>, b: map<string, string>, forms: map<string, seq<string>>)
    requires Mirrors(a, forms) && Mirrors(b, forms)
    ensures a == b
  {
    hide Pack, KeyOf;
    forall key | key in a ensures key in b && a[key] == b[key] {
      var n :| n in forms && |n| >= 4 && key == KeyOf(n);
    }
    forall key | key in b ensures key in a {
      var n :| n in forms && |n| >= 4 && key == KeyOf(n);
    }
  }

  /** All of a client's forms are marked sent. */
  ghost predicate AllSent(c: Client, p: nat, sent: set<(nat, string)>) {
    forall n :: n in c.forms ==> (p, n) in sent
  }

  /** No other client writes to the college of client p, and none of its own names was announced
      in vain. */
  ghost predicate Undisturbed(cfg: Config, w: World, p: nat)
    requires p < |cfg.clients| && |cfg.clients[p].login| == 4
  {
    forall k :: 0 <= k < |w.log| && w.log[k].college == CollegeNumber(cfg.clients[p]) ==>
      w.log[k].client == p && |w.log[k].names| == 1
  }

  lemma UndisturbedAt(cfg: Config, w: World, p: nat, k: nat)
    requires p < |cfg.clients| && |cfg.clients[p].login| == 4 && Undisturbed(cfg, w, p) && WorldInv(cfg, w)
    requires k < |w.log| && w.log[k].college == CollegeNumber(cfg.clients[p])
    ensures w.log[k].client == p && Faithful(cfg.clients[p], w.log[k])
  {
    hide WorldInv, Faithful, GoodEntry, CollegeNumber;
    GoodAt(cfg, w, k);
    FaithfulAlone(cfg, w.log[k]);
  }

  /** Once all forms of an undisturbed client are marked sent, its college's database holds exactly
      these forms - whatever was sent twice, lost or left over on the way. */
  lemma Converged(cfg: Config, w: World, p: nat)
    requires Sound(cfg) && Reachable(cfg, w) && p < |cfg.clients| && |cfg.clients[p].login| == 4
    requires Undisturbed(cfg, w, p) && AllSent(cfg.clients[p], p, w.sent)
    ensures Mirrors(Db(w.log, CollegeNumber(cfg.clients[p])), cfg.clients[p].forms)
  {
    hide Sound, WorldInv, Reachable, Pack, Flatten, KeyOf, CollegeNumber, Faithful, FormFiles, Undisturbed, Kept,
      CleanSince, PutOf;
    ReachableIs(cfg, w);
    var c := cfg.clients[p];
    var db := Db(w.log, CollegeNumber(c));
    SoundForms(cfg, p);
    forall n | n in c.forms ensures |n| >= 4 && KeyOf(n) in db && db[KeyOf(n)] == Pack(c.forms[n]) {
      LongEnough(c, n);
      SentHasPut(cfg, w, p, n);
      SentIsStored(cfg, w, p, n);
      var k: nat :| k < |w.log| && PutOf(w.log[k], p, n);
      UndisturbedIsClean(cfg, w, p, n, k);
      KeptIs(c, n, w.log);
    }
    forall key | key in db ensures exists n :: n in c.forms && |n| >= 4 && key == KeyOf(n) {
      var k := DbComesFrom(w.log, CollegeNumber(c), key);
      UndisturbedAt(cfg, w, p, k);
      FaithfulKey(c, w.log[k]);
    }
  }

  lemma KeptIs(c: Client, n: string, log: seq<Entry>)
    requires |c.login| == 4 && |n| >= 4 && n in c.forms && Kept(c, n, log)
    ensures var db := Db(log, CollegeNumber(c)); KeyOf(n) in db && db[KeyOf(n)] == Pack(c.forms[n])
  {
  }

  lemma UndisturbedIsClean(cfg: Config, w: World, p: nat, n: string, k: nat)
    requires WorldInv(cfg, w) && p < |cfg.clients| && |cfg.clients[p].login| == 4 && Undisturbed(cfg, w, p)
    requires k < |w.log| && PutOf(w.log[k], p, n)
    ensures CleanSince(w.log, k)
  {
    hide WorldInv, GoodEntry, CollegeNumber;
    GoodAt(cfg, w, k);
    CollegeOf(cfg, w.log[k]);
  }

  lemma SoundForms(cfg: Config, p: nat)
    requires Sound(cfg) && p < |cfg.clients|
    ensures FormFiles(cfg.clients[p].forms)
  {
    hide FormFiles;
    assert GoodClient(cfg.clients[p]);
  }

  lemma LongEnough(c: Client, n: string)
    requires FormFiles(c.forms) && n in c.forms
    ensures |n| >= 4 && n == KeyOf(n) + ".txt"
  {
    assert GoodName(n);
    assert n == n[..|n| - 4] + n[|n| - 4..];
  }

  lemma FaithfulKey(c: Client, e: Entry)
    requires Faithful(c, e)
    ensures e.names != []
    ensures var n := e.names[|e.names| - 1];
            && n in c.forms && |n| >= 4 && e.key == KeyOf(n)
            && e.record == Pack(c.forms[n]) && e.text == Flatten(c.forms[n])
  {
    hide Pack, Flatten, KeyOf;
  }
}
