/** What holds over whole runs of any number of clients. */
module ProtocolRuns {
  import opened Bytes
  import opened Streams
  import opened Records
  import opened Server
  import opened Framing
  import opened Protocol
  import opened ProtocolInvariant
  import opened ProtocolClient
  import opened ProtocolServer

  /** The put of client p's form n is in the log. */
  ghost predicate HasPut(log: seq<Entry>, p: nat, n: string) {
    exists k: nat :: k < |log| && PutOf(log[k], p, n)
  }

  predicate PutOf(e: Entry, p: nat, n: string) {
    e.client == p && e.names != [] && e.names[|e.names| - 1] == n
  }

  ghost predicate WorldInv(cfg: Config, w: World) {
    && |w.bufs| == |cfg.clients| && (forall p :: 0 <= p < |w.bufs| ==> w.bufs[p] == "")
    && (forall i :: 0 <= i < |w.sessions| ==> SessionInv(cfg, w.sessions[i], w.log))
    && (forall k :: 0 <= k < |w.log| ==> GoodEntry(cfg, w.log[k]))
    && (forall p, n :: (p, n) in w.sent ==> HasPut(w.log, p, n))
  }

  // ---------------------------------------------------------------------------------------
  // One event
  // ---------------------------------------------------------------------------------------

  /** A session's invariant survives puts of others. */
  lemma LogGrows(cfg: Config, s: Session, log: seq<Entry>, more: seq<Entry>)
    requires SessionInv(cfg, s, log)
    ensures SessionInv(cfg, s, log + more)
  {
    hide Carried, InStep, Followed, Admitted, Settled, GoodClient, Exact, NameLines, WholeLine, Placed;
  }

  lemma HasPutGrows(log: seq<Entry>, more: seq<Entry>, p: nat, n: string)
    requires HasPut(log, p, n)
    ensures HasPut(log + more, p, n)
  {
    var k: nat :| k < |log| && PutOf(log[k], p, n);
    assert PutOf((log + more)[k], p, n);
  }

  lemma FreshKeeps(cfg: Config, p: nat, log: seq<Entry>)
    requires Sound(cfg) && p < |cfg.clients|
    ensures SessionInv(cfg, Connected(p, cfg.clients[p].forms.Keys), log)
  {
    var s := Connected(p, cfg.clients[p].forms.Keys);
    LoginIs(cfg.clients[p]);
    FreshParts(cfg, cfg.clients[p], s, log);
    hide Sound, GoodClient, Carried, Answered, InStep, Followed, Shaped, Admitted, Settled;
  }

  lemma FreshParts(cfg: Config, c: Client, s: Session, log: seq<Entry>)
    requires |c.login| == 4 && s == Connected(s.owner, c.forms.Keys)
    ensures Carried(s) && Answered(s, log) && InStep(cfg, c, s) && Followed(s)
    ensures Shaped(c, s, log) && Admitted(cfg, c, s) && Settled(s)
  {
    hide Exact, Entitled;
  }

  /** The connection breaks, and what was in flight is lost from some byte on. */
  lemma CutSessionKeeps(cfg: Config, s: Session, m: nat, n: nat, log: seq<Entry>, t: Session)
    requires SessionInv(cfg, s, log)
    requires t == s.(c2s := s.c2s[..Least(m, |s.c2s|)], s2c := s.s2c[..Least(n, |s.s2c|)], up := false)
    ensures SessionInv(cfg, t, log)
  {
    hide Carried, Answered, InStep, Shaped, Admitted, GoodClient, Followed, Settled;
    LoginIs(cfg.clients[s.owner]);
    CutWire(s, m, n, log, t);
    CutFollows(s, t);
    CutInStep(cfg, cfg.clients[s.owner], s, t);
    CutShaped(cfg.clients[s.owner], s, t, log);
    SameAdmitted(cfg, cfg.clients[s.owner], s, t);
  }

  lemma CutWire(s: Session, m: nat, n: nat, log: seq<Entry>, t: Session)
    requires Carried(s) && Answered(s, log)
    requires t == s.(c2s := s.c2s[..Least(m, |s.c2s|)], s2c := s.s2c[..Least(n, |s.s2c|)], up := false)
    ensures Carried(t) && Answered(t, log)
  {
    hide Flatten;
    if t.reply != "" { SameRight(s, t, s.reply, log); }
    hide Right;
  }

  lemma CutFollows(s: Session, t: Session)
    requires Followed(s) && Settled(s)
    requires t == s.(c2s := t.c2s, s2c := t.s2c, up := false) && |t.c2s| <= |s.c2s|
    ensures Followed(t) && Settled(t)
  {
    hide Listening, Flatten, Pack, IsName, NameIn;
  }

  lemma CutInStep(cfg: Config, c: Client, s: Session, t: Session)
    requires |c.login| == 4 && InStep(cfg, c, s) && t == s.(c2s := t.c2s, s2c := t.s2c, up := false)
    ensures InStep(cfg, c, t)
  {
    hide UserLine, PassLine, UserOfClient, Messages;
  }

  lemma CutShaped(c: Client, s: Session, t: Session, log: seq<Entry>)
    requires Shaped(c, s, log) && t == s.(c2s := t.c2s, s2c := t.s2c, up := false)
    ensures Shaped(c, t, log)
  {
    hide Exact, Placed;
    if t.reply != "" { SamePlace(c, s, t); }
  }

  lemma CancelKeeps(cfg: Config, s: Session, log: seq<Entry>, t: Session)
    requires SessionInv(cfg, s, log) && t == s.(cancelled := true)
    ensures SessionInv(cfg, t, log)
  {
    hide Carried, Answered, InStep, Shaped, Admitted, GoodClient, Followed, Settled;
    var c := cfg.clients[s.owner];
    LoginIs(c);
    CancelWire(s, log, t);
    CancelInStep(cfg, c, s, t);
    CancelShaped(c, s, t, log);
    SameAdmitted(cfg, c, s, t);
  }

  lemma CancelWire(s: Session, log: seq<Entry>, t: Session)
    requires Carried(s) && Answered(s, log) && Followed(s) && Settled(s) && t == s.(cancelled := true)
    ensures Carried(t) && Answered(t, log) && Followed(t) && Settled(t)
  {
    hide Flatten, Pack, Listening, IsName, NameIn;
    if t.reply != "" { SameRight(s, t, s.reply, log); }
    hide Right;
  }

  lemma CancelInStep(cfg: Config, c: Client, s: Session, t: Session)
    requires |c.login| == 4 && InStep(cfg, c, s) && t == s.(cancelled := true)
    ensures InStep(cfg, c, t)
  {
    hide UserLine, PassLine, UserOfClient, Messages;
  }

  lemma CancelShaped(c: Client, s: Session, t: Session, log: seq<Entry>)
    requires Shaped(c, s, log) && t == s.(cancelled := true)
    ensures Shaped(c, t, log)
  {
    hide Exact, NameLines;
  }

  /** One session changed, and perhaps the log grew. */
  lemma OneChanged(cfg: Config, w: World, i: nat, t: Session, entry: Option<Entry>, w': World)
    requires WorldInv(cfg, w) && i < |w.sessions|
    requires SessionInv(cfg, t, Grown(w.log, entry)) && (entry.Some? ==> GoodEntry(cfg, entry.value))
    requires w' == w.(sessions := w.sessions[i := t], log := Grown(w.log, entry))
    ensures WorldInv(cfg, w')
  {
    hide SessionInv, GoodEntry, HasPut;
    var more := if entry.Some? then [entry.value] else [];
    forall j | 0 <= j < |w'.sessions| ensures SessionInv(cfg, w'.sessions[j], w'.log) {
      if j != i { LogGrows(cfg, w.sessions[j], w.log, more); }
    }
    forall p, n | (p, n) in w'.sent ensures HasPut(w'.log, p, n) { HasPutGrows(w.log, more, p, n); }
  }

  /** What one client step does to the world. */
  lemma ClientActsIs(cfg: Config, w: World, i: nat, ch: Choice, w': World) returns (a: Acted)
    requires Next(cfg, w, ClientActs(i, ch)) == Some(w')
    ensures i < |w.sessions| && w.sessions[i].owner < |cfg.clients| && w.sessions[i].owner < |w.bufs|
    ensures var p := w.sessions[i].owner;
            && ClientStep(cfg, w.sessions[i], w.bufs[p], w.sent, ch) == Some(a)
            && w' == w.(sessions := w.sessions[i := a.s], bufs := w.bufs[p := a.buf], sent := w'.sent)
            && w'.sent == w.sent + set n | n in a.marks :: (p, n)
  {
    hide ClientStep;
    a := ClientStep(cfg, w.sessions[i], w.bufs[w.sessions[i].owner], w.sent, ch).value;
  }

  lemma ClientActsKeeps(cfg: Config, w: World, i: nat, ch: Choice, w': World)
    requires Sound(cfg) && WorldInv(cfg, w) && Next(cfg, w, ClientActs(i, ch)) == Some(w')
    ensures WorldInv(cfg, w')
  {
    hide WorldInv, Sound, ClientStep, SessionInv, Logged, Next;
    MagicLength(cfg);
    var a := ClientActsIs(cfg, w, i, ch, w');
    InvOf(cfg, w, i);
    EmptyBuf(cfg, w, w.sessions[i].owner);
    ClientKeeps(cfg, w.sessions[i], w.sent, ch, w.log, a);
    SameLog(w.log);
    var w1 := w.(sessions := w.sessions[i := a.s]);
    OneChanged(cfg, w, i, a.s, None, w1);
    MarksKeep(cfg, w1, w.sessions[i], a.marks, w');
  }

  lemma EmptyBuf(cfg: Config, w: World, p: nat)
    requires WorldInv(cfg, w) && p < |w.bufs|
    ensures w.bufs[p] == "" && w.bufs[p := ""] == w.bufs
  {
    hide SessionInv, GoodEntry, HasPut;
  }

  lemma MarksKeep(cfg: Config, w1: World, s: Session, marks: set<string>, w': World)
    requires WorldInv(cfg, w1)
    requires w' == w1.(sent := w1.sent + set n | n in marks :: (s.owner, n))
    requires marks != {} ==> s.pc.Marking? && marks == {s.pc.name} && Logged(s, w1.log)
                             && s.names != [] && s.names[|s.names| - 1] == s.pc.name
    ensures WorldInv(cfg, w')
  {
    hide SessionInv, GoodEntry, HasPut, Logged;
    forall q, n | (q, n) in w'.sent ensures HasPut(w'.log, q, n) {
      if (q, n) !in w1.sent { MarkedHasPut(s, w1.log, n); }
    }
  }

  lemma MarkedHasPut(s: Session, log: seq<Entry>, n: string)
    requires Logged(s, log) && s.names != [] && s.names[|s.names| - 1] == n
    ensures HasPut(log, s.owner, n)
  {
    assert PutOf(log[s.stored.value], s.owner, n);
  }

  lemma ServerActsKeeps(cfg: Config, w: World, i: nat, ch: Chance, w': World)
    requires Sound(cfg) && WorldInv(cfg, w) && Next(cfg, w, ServerActs(i, ch)) == Some(w')
    ensures WorldInv(cfg, w')
  {
    hide SessionInv, GoodEntry, HasPut, Sound, ServerStep;
    var d := ServerStep(cfg, w.sessions[i], |w.log|, ch).value;
    OwnerIs(cfg, w.sessions[i], w.log);
    ServerKeeps(cfg, w.sessions[i], ch, w.log, d);
    OneChanged(cfg, w, i, d.s, d.entry, w');
  }

  lemma OwnerIs(cfg: Config, s: Session, log: seq<Entry>)
    requires SessionInv(cfg, s, log)
    ensures s.owner < |cfg.clients|
  {
    hide Carried, Answered, InStep, Shaped, Admitted, Settled, Followed, GoodClient;
  }

  /** Every event keeps the invariant. */
  lemma NextKeeps(cfg: Config, w: World, e: Event, w': World)
    requires Sound(cfg) && WorldInv(cfg, w) && Next(cfg, w, e) == Some(w')
    ensures WorldInv(cfg, w')
  {
    SameLog(w.log);
    match e {
      case ClientActs(i, ch) => ClientActsKeeps(cfg, w, i, ch, w');
      case ServerActs(i, ch) => ServerActsKeeps(cfg, w, i, ch, w');
      case Connect(p) => ConnectKeeps(cfg, w, p, w');
      case Cut(i, m, n) =>
        hide WorldInv;
        InvOf(cfg, w, i);
        CutSessionKeeps(cfg, w.sessions[i], m, n, w.log, w'.sessions[i]);
        OneChanged(cfg, w, i, w'.sessions[i], None, w');
      case GiveUp(i) =>
        hide WorldInv;
        InvOf(cfg, w, i);
        GoneKeeps(cfg, w.sessions[i], w.log, w'.sessions[i]);
        OneChanged(cfg, w, i, w'.sessions[i], None, w');
      case Cancel(i) =>
        hide WorldInv;
        InvOf(cfg, w, i);
        CancelKeeps(cfg, w.sessions[i], w.log, w'.sessions[i]);
        OneChanged(cfg, w, i, w'.sessions[i], None, w');
    }
  }

  lemma InvOf(cfg: Config, w: World, i: nat)
    requires WorldInv(cfg, w) && i < |w.sessions|
    ensures SessionInv(cfg, w.sessions[i], w.log) && w.sessions[i].owner < |cfg.clients|
  {
    hide HasPut, GoodEntry;
    OwnerIs(cfg, w.sessions[i], w.log);
    hide SessionInv;
  }

  lemma ConnectKeeps(cfg: Config, w: World, p: nat, w': World)
    requires Sound(cfg) && WorldInv(cfg, w) && Next(cfg, w, Connect(p)) == Some(w')
    ensures WorldInv(cfg, w')
  {
    hide SessionInv, HasPut, GoodEntry, Sound, Idle, Connected;
    FreshKeeps(cfg, p, w.log);
  }

  /** Every reachable state satisfies the invariant. */
  lemma {:induction false} RunKeeps(cfg: Config, w: World, es: seq<Event>, w': World)
    requires Sound(cfg) && WorldInv(cfg, w) && Exec(cfg, w, es) == Some(w')
    ensures WorldInv(cfg, w')
    decreases |es|
  {
    hide WorldInv, Next, Sound;
    if es != [] {
      var w1 := Next(cfg, w, es[0]).value;
      NextKeeps(cfg, w, es[0], w1);
      RunKeeps(cfg, w1, es[1..], w');
    }
  }

  lemma InitKeeps(cfg: Config)
    ensures WorldInv(cfg, Init(cfg))
  {
  }
}
