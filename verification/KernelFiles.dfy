/** kernel/files.c: message queues. */
module KernelFiles {
  import opened PriorityQueue
  import opened KernelState
  import opened KernelMoves
  import opened KernelReap
  import opened KernelSched
  import opened KernelWake

  function Elu(s: Noyau): Processus
    requires s.elu in s.procs
  {
    s.procs[s.elu]
  }

  function MajFile(s: Noyau, fid: int, msgs: seq<int>): Noyau
    requires fid in s.files
  {
    s.(files := s.files[fid := s.files[fid].(queueMsg := msgs)])
  }

  /** Every call reads tableauFile only at a valid index, so that an invalid fid and an absent
      queue are both "fid !in files". */
  function Pcount(s: Noyau, fid: int, nonNul: bool): Issue {
    if fid !in s.files || !nonNul then Rend(s, -1, 0)
    else
      var nbMsg, nbProc := |s.files[fid].queueMsg|, |Chaine(s, AttenteFile(fid))|;
      Rend(s, 0, if nbMsg == 0 then -nbProc else nbMsg + nbProc)
  }

  function Pcreate(s: Noyau, maxMsg: int): Issue {
    if maxMsg <= 0 || maxMsg > MAXMSG || s.fidsLibres == [] then Rend(s, -1, 0)
    else
      Rend(FileNouvelle(s, maxMsg), s.fidsLibres[0], 0)
  }

  /** The messages of a queue are thrown away. */
  function Jetee(s: Noyau, fid: int): Noyau {
    if fid in s.files then MajFile(s, fid, []) else s
  }

  function Preset(s: Noyau, fid: int): Issue
    requires s.elu in s.procs
  {
    if fid !in s.files then Rend(s, -1, 0)
    else
      var q := Chaine(s, AttenteFile(fid));
      Rend(Finir(Jetee(ReveillerListe(s, q, 0), fid), Depasse(s, q, Elu(s).prio)), 0, 0)
  }

  function Pdelete(s: Noyau, fid: int): Issue
    requires s.elu in s.procs
  {
    if fid !in s.files then Rend(s, -1, 0)
    else
      var q := Chaine(s, AttenteFile(fid));
      Rend(Finir(Retiree(ReveillerListe(s, q, 0), fid), Depasse(s, q, Elu(s).prio)), 0, 0)
  }

  /** The head of the waiting list receives `m` directly. */
  function Remise(s: Noyau, p: int, m: int): Noyau
    requires p in s.procs
  {
    Reveil(s, p, s.procs[p].(fid := -1, fileValue := m, operationStatus := 1))
  }

  /** The caller waits on message queue `fid`. */
  function Attente(s: Noyau, fid: int, valeur: int, suite: Suite): Noyau
    requires s.elu in s.procs
  {
    Deplacer(s, s.elu, Elu(s).(etat := ATTEND_FILE, fid := fid, fileValue := valeur, operationStatus := 1, suite := suite),
             AttenteFile(fid))
  }

  function Psend(s: Noyau, fid: int, m: int): Issue
    requires s.elu in s.procs
  {
    if fid !in s.files then Rend(s, -1, 0)
    else
      var f, q := s.files[fid], Chaine(s, AttenteFile(fid));
      var s0 := Maj(s, s.elu, Elu(s).(fileValue := m, operationStatus := 1));
      if f.queueMsg == [] && q != [] && q[0] in s.procs then
        Rend(Finir(Remise(s0, q[0], m), s.procs[q[0]].prio > Elu(s).prio), 0, 0)
      else if |f.queueMsg| == f.maxMsg then
        Suspend(Ordonnanceur(Attente(s, fid, m, DansPsend)))
      else
        Rend(MajFile(s0, fid, f.queueMsg + [m]), 0, 0)
  }

  function Preceive(s: Noyau, fid: int): Issue
    requires s.elu in s.procs
  {
    if fid !in s.files then Rend(s, -1, 0)
    else
      var f, q := s.files[fid], Chaine(s, AttenteFile(fid));
      if f.queueMsg == [] then
        Suspend(Ordonnanceur(Attente(s, fid, -1, DansPreceive)))
      else
        var s0 := Maj(s, s.elu, Elu(s).(fileValue := -1, operationStatus := 1));
        if q != [] && q[0] in s.procs then
          var p := s.procs[q[0]];
          var s1 := MajFile(s0, fid, f.queueMsg[1..] + [p.fileValue]);
          Rend(Finir(Reveil(s1, q[0], p.(fid := -1, operationStatus := 1)), p.prio > Elu(s).prio), 0, f.queueMsg[0])
        else
          Rend(MajFile(s0, fid, f.queueMsg[1..]), 0, f.queueMsg[0])
  }

  /** The code after ordonnanceur() in psend and preceive. */
  function ReprisePsend(s: Noyau): Issue
    requires s.elu in s.procs
  {
    Rend(Maj(s, s.elu, Elu(s).(suite := Utilisateur)), if Elu(s).operationStatus == 0 then -1 else 0, 0)
  }

  function ReprisePreceive(s: Noyau): Issue
    requires s.elu in s.procs
  {
    Rend(Maj(s, s.elu, Elu(s).(suite := Utilisateur)), if Elu(s).operationStatus == 0 then -1 else 0, Elu(s).fileValue)
  }

  // ----- The invariant is kept ----------------------------------------------------------

  /** Writing fields of the running process that no queue and no family looks at. */
  lemma MajEluInv(s: Noyau, rec: Processus)
    requires Inv(s)
    requires rec.etat == ELU && rec.chainage == Libre && rec.prio == Elu(s).prio
    requires rec.pere == Elu(s).pere && rec.fils == Elu(s).fils && AttenteFondee(rec)
    ensures Inv(Maj(s, s.elu, rec)) && (Preeminent(s) ==> Preeminent(Maj(s, s.elu, rec)))
    ensures forall r :: Chaine(Maj(s, s.elu, rec), r) == Chaine(s, r)
  {
    assert Detacher(s, s.elu, rec) == Maj(s, s.elu, rec);
    if s.elu == IDLE {
      DetacherStructure(s, s.elu, rec);
    } else {
      DetacherCoherent(s, s.elu, rec);
    }
    assert forall r :: Chaine(Maj(s, s.elu, rec), r) == Chaine(s, r);
  }

  /** Changing the buffer of a queue nobody waits on. */
  lemma MajFileInv(s: Noyau, fid: int, msgs: seq<int>)
    requires Coherent(s) && fid in s.files && |msgs| <= s.files[fid].maxMsg
    requires Chaine(s, AttenteFile(fid)) == [] || |msgs| == |s.files[fid].queueMsg|
    ensures Coherent(MajFile(s, fid, msgs)) && (Preeminent(s) ==> Preeminent(MajFile(s, fid, msgs)))
    ensures forall r :: Chaine(MajFile(s, fid, msgs), r) == Chaine(s, r)
  {
    var s' := MajFile(s, fid, msgs);
    assert forall r :: Chaine(s', r) == Chaine(s, r);
    TriPareil(s, s');
    forall f ensures AttenteSaine(s', f) {
      assert AttenteSaine(s, f);
    }
  }

  lemma TriPareil(s: Noyau, s': Noyau)
    requires Tri(s) && s'.procs == s.procs && forall r :: Chaine(s', r) == Chaine(s, r)
    ensures Tri(s')
  {
    forall r | Trie(s, r) ensures Trie(s', r) {}
  }

  /** Nothing but the tables of queues and semaphores differs. */
  lemma MemesProcessus(s: Noyau, s': Noyau)
    requires s'.procs == s.procs && s'.elu == s.elu && s'.libres == s.libres && s'.anneaux == s.anneaux
    ensures forall r :: Chaine(s', r) == Chaine(s, r)
    ensures Inv(s) && Files(s') && Sems(s') ==> Inv(s')
    ensures Preeminent(s) ==> Preeminent(s')
  {
    assert forall r :: Chaine(s', r) == Chaine(s, r);
    if Tri(s) { TriPareil(s, s'); }
  }

  /** A new queue, whose identifier leaves the free list. */
  function FileNouvelle(s: Noyau, maxMsg: int): Noyau
    requires s.fidsLibres != []
  {
    s.(fidsLibres := s.fidsLibres[1..], files := s.files[s.fidsLibres[0] := File(maxMsg, [])])
  }

  lemma FileNouvelleSaine(s: Noyau, maxMsg: int)
    requires Files(s) && Sems(s) && s.fidsLibres != [] && 1 <= maxMsg <= MAXMSG
    ensures Files(FileNouvelle(s, maxMsg)) && Sems(FileNouvelle(s, maxMsg))
  {
    var s', fid := FileNouvelle(s, maxMsg), s.fidsLibres[0];
    assert fid in s.fidsLibres;
    assert forall r :: Chaine(s', r) == Chaine(s, r);
    NouveauFid(s.fidsLibres);
    forall f ensures AttenteSaine(s', f) {
      assert AttenteSaine(s, f);
    }
  }

  lemma PcreateInv(s: Noyau, maxMsg: int)
    requires Inv(s)
    ensures Inv(Pcreate(s, maxMsg).s)
  {
    hide Tri, Famille, Table, Etats, Files, Sems;
    if 0 < maxMsg <= MAXMSG && s.fidsLibres != [] {
      FileNouvelleSaine(s, maxMsg);
      MemesProcessus(s, FileNouvelle(s, maxMsg));
    }
  }

  lemma NouveauFid(q: seq<int>)
    requires q != [] && NoDup(q)
    ensures NoDup(q[1..])
    ensures forall x :: x in q[1..] <==> x in q && x != q[0]
  {
    assert Without(q, q[0]) == q[1..] by { WithoutHead(q); }
    WithoutElems(q, q[0]);
  }

  lemma PresetInv(s: Noyau, fid: int)
    requires Inv(s)
    ensures !Preset(s, fid).Panique? && Inv(Preset(s, fid).s)
    ensures Preeminent(s) ==> Preeminent(Preset(s, fid).s)
  {
    if fid in s.files {
      var r := AttenteFile(fid);
      var s1, commute := ReveillerListe(s, Chaine(s, r), 0), Depasse(s, Chaine(s, r), Elu(s).prio);
      ReveillerListeEffet(s, r, 0);
      if !commute && Preeminent(s) { ReveillerListePreeminent(s, r, 0); }
      MajFileInv(s1, fid, []);
      FinirInv(MajFile(s1, fid, []), commute);
    }
  }

  /** pdelete once the waiting list is empty. */
  function Retiree(s: Noyau, fid: int): Noyau {
    s.(files := s.files - {fid}, fidsLibres := Insert(s.fidsLibres, Position(s.fidsLibres, fid), fid))
  }

  lemma RetireeCoherent(s: Noyau, fid: int)
    requires Coherent(s) && fid in s.files && Chaine(s, AttenteFile(fid)) == []
    ensures Coherent(Retiree(s, fid)) && (Preeminent(s) ==> Preeminent(Retiree(s, fid)))
    ensures forall r :: Chaine(Retiree(s, fid), r) == Chaine(s, r)
  {
    var s' := Retiree(s, fid);
    assert forall r :: Chaine(s', r) == Chaine(s, r);
    TriPareil(s, s');
    InsertElems(s.fidsLibres, Position(s.fidsLibres, fid), fid);
    forall f ensures AttenteSaine(s', f) {
      assert AttenteSaine(s, f);
    }
  }

  lemma PdeleteInv(s: Noyau, fid: int)
    requires Inv(s)
    ensures !Pdelete(s, fid).Panique? && Inv(Pdelete(s, fid).s)
    ensures Preeminent(s) ==> Preeminent(Pdelete(s, fid).s)
  {
    if fid in s.files {
      var r := AttenteFile(fid);
      var s1, commute := ReveillerListe(s, Chaine(s, r), 0), Depasse(s, Chaine(s, r), Elu(s).prio);
      ReveillerListeEffet(s, r, 0);
      if !commute && Preeminent(s) { ReveillerListePreeminent(s, r, 0); }
      RetireeCoherent(s1, fid);
      FinirInv(Retiree(s1, fid), commute);
    }
  }

  /** The waiting list of an empty queue holds receivers only, that of a full one senders. */
  lemma TeteEnAttente(s: Noyau, fid: int)
    requires Inv(s) && fid in s.files && Chaine(s, AttenteFile(fid)) != []
    ensures var p := Chaine(s, AttenteFile(fid))[0];
      p in s.procs && p != s.elu && s.procs[p].etat == ATTEND_FILE && s.procs[p].fid == fid
      && (s.procs[p].suite == DansPreceive <==> s.files[fid].queueMsg == [])
      && (s.procs[p].suite == DansPsend <==> |s.files[fid].queueMsg| == s.files[fid].maxMsg)
  {
    TeteBloquee(s, AttenteFile(fid));
    assert AttenteSaine(s, fid);
    assert Chaine(s, AttenteFile(fid))[0] in Chaine(s, AttenteFile(fid));
  }

  /** psend keeps the invariant; it hands its message only to a receiver, and stores it only in a
      buffer that is not full and that nobody waits for. */
  lemma PsendInv(s: Noyau, fid: int, m: int)
    requires Inv(s) && s.elu != IDLE
    ensures !Psend(s, fid, m).Panique? && Inv(Psend(s, fid, m).s)
    ensures Preeminent(s) ==> Preeminent(Psend(s, fid, m).s)
    ensures fid in s.files ==>
      var f, q := s.files[fid], Chaine(s, AttenteFile(fid));
      if f.queueMsg == [] && q != [] then q[0] in s.procs && s.procs[q[0]].suite == DansPreceive
      else |f.queueMsg| == f.maxMsg || (|f.queueMsg| < f.maxMsg && q == [])
  {
    hide Deplacer, Reveil, Finir, Ordonnanceur, Table, Tri;
    if fid in s.files {
      var f, q := s.files[fid], Chaine(s, AttenteFile(fid));
      if q != [] { TeteEnAttente(s, fid); }
      if (f.queueMsg != [] || q == []) && |f.queueMsg| == f.maxMsg {
        SuspendreInv(s, Elu(s).(etat := ATTEND_FILE, fid := fid, fileValue := m, operationStatus := 1, suite := DansPsend),
                     AttenteFile(fid));
      } else {
        var s0 := Maj(s, s.elu, Elu(s).(fileValue := m, operationStatus := 1));
        MajEluInv(s, Elu(s).(fileValue := m, operationStatus := 1));
        if f.queueMsg == [] && q != [] {
          ReveilFinirInv(s0, q[0], s.procs[q[0]].(fid := -1, fileValue := m, operationStatus := 1));
        } else {
          MajFileInv(s0, fid, f.queueMsg + [m]);
        }
      }
    }
  }

  /** preceive keeps the invariant; the process whose message it moves into the buffer is a sender,
      and the buffer was full. */
  lemma PreceiveInv(s: Noyau, fid: int)
    requires Inv(s) && s.elu != IDLE
    ensures !Preceive(s, fid).Panique? && Inv(Preceive(s, fid).s)
    ensures Preeminent(s) ==> Preeminent(Preceive(s, fid).s)
    ensures fid in s.files && s.files[fid].queueMsg != [] && Chaine(s, AttenteFile(fid)) != [] ==>
      var p := Chaine(s, AttenteFile(fid))[0];
      p in s.procs && s.procs[p].suite == DansPsend && |s.files[fid].queueMsg| == s.files[fid].maxMsg
  {
    if fid in s.files {
      var f, q := s.files[fid], Chaine(s, AttenteFile(fid));
      if f.queueMsg == [] {
        SuspendreInv(s, Elu(s).(etat := ATTEND_FILE, fid := fid, fileValue := -1, operationStatus := 1, suite := DansPreceive),
                     AttenteFile(fid));
      } else {
        var s0 := Maj(s, s.elu, Elu(s).(fileValue := -1, operationStatus := 1));
        MajEluInv(s, Elu(s).(fileValue := -1, operationStatus := 1));
        if q == [] {
          MajFileInv(s0, fid, f.queueMsg[1..]);
        } else {
          TeteEnAttente(s, fid);
          PreceiveEmetteur(s0, s, fid);
        }
      }
    }
  }

  lemma PreceiveEmetteur(s0: Noyau, s: Noyau, fid: int)
    requires Inv(s0) && fid in s.files && s.files[fid].queueMsg != [] && s.elu in s.procs
    requires s0 == Maj(s, s.elu, Elu(s).(fileValue := -1, operationStatus := 1))
    requires var q := Chaine(s0, AttenteFile(fid));
      q != [] && q[0] in s.procs && q[0] != s.elu && EnAttente(s0.procs[q[0]].etat)
    ensures Preceive(s, fid).Rend? && Inv(Preceive(s, fid).s)
    ensures Preeminent(s0) ==> Preeminent(Preceive(s, fid).s)
  {
    var f, x := s.files[fid], Chaine(s, AttenteFile(fid))[0];
    var p := s.procs[x];
    var msgs := f.queueMsg[1..] + [p.fileValue];
    var s1 := MajFile(s0, fid, msgs);
    MajFileInv(s0, fid, msgs);
    ReveilFinirInv(s1, x, p.(fid := -1, operationStatus := 1));
  }

  // ----- pcount --------------------------------------------------------------------------

  /** The processes blocked on an empty queue, and on a full one. */
  ghost function Recepteurs(s: Noyau, fid: int): set<int> {
    set p | p in s.procs && s.procs[p].etat == ATTEND_FILE && s.procs[p].fid == fid && s.procs[p].suite == DansPreceive
  }

  ghost function Emetteurs(s: Noyau, fid: int): set<int> {
    set p | p in s.procs && s.procs[p].etat == ATTEND_FILE && s.procs[p].fid == fid && s.procs[p].suite == DansPsend
  }

  lemma {:induction false} TailleFile(q: seq<int>, a: set<int>)
    requires NoDup(q) && forall p :: p in q <==> p in a
    ensures |q| == |a|
    decreases |q|
  {
    if q == [] {
      assert forall p :: p in a ==> p in q;
      assert a == {};
    } else {
      assert q[0] in q;
      WithoutHead(q);
      WithoutElems(q, q[0]);
      TailleFile(q[1..], a - {q[0]});
    }
  }

  lemma AttenteEnsembles(s: Noyau, fid: int)
    requires Inv(s)
    ensures forall p :: p in Chaine(s, AttenteFile(fid)) <==> p in Recepteurs(s, fid) + Emetteurs(s, fid)
    ensures fid in s.files && s.files[fid].queueMsg == [] ==> Emetteurs(s, fid) == {}
    ensures fid in s.files && s.files[fid].queueMsg != [] ==> Recepteurs(s, fid) == {}
    ensures fid !in s.files ==> Recepteurs(s, fid) == {} && Emetteurs(s, fid) == {}
  {
    assert AttenteSaine(s, fid);
    forall p ensures p in Chaine(s, AttenteFile(fid)) <==> p in Recepteurs(s, fid) + Emetteurs(s, fid) {
    }
    forall p | p in Recepteurs(s, fid) ensures fid in s.files && s.files[fid].queueMsg == [] {
      assert p in Chaine(s, AttenteFile(fid));
    }
    forall p | p in Emetteurs(s, fid)
      ensures fid in s.files && |s.files[fid].queueMsg| == s.files[fid].maxMsg && s.files[fid].maxMsg >= 1
    {
      assert p in Chaine(s, AttenteFile(fid));
    }
  }

  /** pcount counts what its documentation says: minus the processes blocked on the empty
      queue, or the messages plus the processes blocked on the full one. */
  lemma PcountJuste(s: Noyau, fid: int)
    requires Inv(s) && fid in s.files
    ensures Pcount(s, fid, true).s == s && Pcount(s, fid, true).code == 0
    ensures Pcount(s, fid, true).valeur ==
      if Recepteurs(s, fid) != {} then -|Recepteurs(s, fid)| else |s.files[fid].queueMsg| + |Emetteurs(s, fid)|
  {
    AttenteEnsembles(s, fid);
    TailleFile(Chaine(s, AttenteFile(fid)), Recepteurs(s, fid) + Emetteurs(s, fid));
    if s.files[fid].queueMsg == [] {
      assert Recepteurs(s, fid) + Emetteurs(s, fid) == Recepteurs(s, fid);
    } else {
      assert Recepteurs(s, fid) + Emetteurs(s, fid) == Emetteurs(s, fid);
    }
  }
}
