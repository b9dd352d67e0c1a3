/** kernel/processus.c, kernel/files.c and kernel/semaphore.c as code that updates the kernel
    state in place.  Every method is proved to do what the corresponding step function of the
    Kernel* modules says, under the invariant; the assertions of the C code are asserts here. */
module KernelMachine {
  import opened PriorityQueue
  import opened KernelState
  import opened KernelMoves
  import opened KernelReap
  import opened KernelSched
  import opened KernelWake
  import opened KernelFiles
  import opened KernelSem
  import opened KernelStart
  import opened KernelDeath
  import opened KernelClock
  import opened KernelFollow
  import opened KernelSteps
  import opened KernelRuns
  import KernelWrites
  import KernelReplies
  import KernelEffects

  /** What a call hands back; `Suspendu` when it goes on only after a later switch. */
  datatype Retour = Code(code: int, valeur: int) | Suspendu

  function EnIssue(r: Retour, s: Noyau): Issue {
    match r
    case Code(c, v) => Rend(s, c, v)
    case Suspendu => Suspend(s)
  }

  lemma EnIssueEtat(r: Retour, s: Noyau)
    ensures !EnIssue(r, s).Panique? && EnIssue(r, s).s == s
    ensures r == Code(0, 0) ==> EnIssue(r, s) == Rend(s, 0, 0)
  {
  }

  /** The search loop of queue_add. */
  method TrouverRang(keys: seq<int>, c: int) returns (k: nat)
    ensures k == Position(keys, c)
  {
    k := |keys|;
    while k > 0 && keys[k-1] < c
      invariant k <= |keys|
      invariant forall i :: k <= i < |keys| ==> keys[i] < c
    {
      k := k - 1;
    }
    PositionUnique(keys, c, k);
  }

  class Kernel {
    var procs: map<int, Processus>
    var libres: seq<int>
    var elu: int
    var anneaux: map<Anneau, seq<int>>
    var files: map<int, File>
    var fidsLibres: seq<int>
    var sems: map<int, int>
    var sidsLibres: seq<int>

    function Vue(): Noyau
      reads this
    {
      Noyau(procs, libres, elu, anneaux, files, fidsLibres, sems, sidsLibres)
    }

    function Liste(r: Anneau): seq<int>
      reads this
    {
      Chaine(Vue(), r)
    }

    /** init_ordonnanceur */
    constructor ()
      ensures Vue() == Demarrage()
    {
      procs := map[IDLE := PREMIER];
      libres := seq(MAX_PROCESS - 1, i => i + 1);
      elu := IDLE;
      anneaux := map[];
      files, fidsLibres := map[], seq(NBQUEUE, i => NBQUEUE - 1 - i);
      sems, sidsLibres := map[], seq(NBSEM, i => NBSEM - 1 - i);
    }

    // ----- shared/queue.h -----------------------------------------------------------------------

    /** queue_add, whose first assertion is that the element is not linked. */
    method Ajouter(p: int, r: Anneau)
      requires p in procs && procs[p].chainage == Libre
      modifies this`procs, this`anneaux
      ensures Vue() == QueueAdd(old(Vue()), r, p)
      ensures procs == old(procs)[p := old(procs)[p].(chainage := Dans(r))]
    {
      var q := Liste(r);
      var k := TrouverRang(Cles(procs, ChampDe(r), q), Cle(procs[p], ChampDe(r)));
      anneaux := anneaux[r := Insert(q, k, p)];
      procs := procs[p := procs[p].(chainage := Dans(r))];
    }

    /** queue_del, whose assertion is that the element is linked. */
    method Oter(p: int)
      requires p in procs && procs[p].chainage.Dans? && p in Chaine(Vue(), procs[p].chainage.anneau)
      modifies this`procs, this`anneaux
      ensures Vue() == QueueDel(old(Vue()), p)
      ensures p in procs && procs[p] == old(procs[p]).(chainage := Libre)
    {
      var r := procs[p].chainage.anneau;
      var q := anneaux[r];
      anneaux := anneaux[r := Cut(q, SlotOf(q, p))];
      procs := procs[p := procs[p].(chainage := Libre)];
    }

    /** queue_out: NULL when the queue is empty. */
    method Sortir(r: Anneau) returns (p: int)
      requires Chainages(Vue()) && NULL !in procs
      modifies this`procs, this`anneaux
      ensures var q := old(Chaine(Vue(), r));
        if q == [] then p == NULL && Vue() == old(Vue())
        else p == q[0] && p in procs && p in old(procs) && old(procs)[p].chainage == Dans(r) && Vue() == QueueDel(old(Vue()), p)
             && procs[p] == old(procs)[p].(chainage := Libre)
    {
      var q := Liste(r);
      if q == [] {
        return NULL;
      }
      p := q[0];
      assert p in Chaine(Vue(), r);
      WithoutHead(q);
      anneaux := anneaux[r := q[1..]];
      procs := procs[p := procs[p].(chainage := Libre)];
    }

    // ----- Reaping and scheduling -----------------------------------------------------------------

    method FreeChilds(tete: seq<int>)
      requires Chainages(Vue()) && NoDup(tete)
      requires forall c :: c in tete ==> c in procs && (procs[c].etat == ZOMBIE ==> procs[c].chainage == Libre)
      modifies this`procs, this`anneaux
      ensures Vue() == KernelReap.FreeChilds(old(Vue()), tete)
    {
      var fils := tete;
      while fils != []
        invariant Chainages(Vue()) && NoDup(fils)
        invariant forall c :: c in fils ==> c in procs && (procs[c].etat == ZOMBIE ==> procs[c].chainage == Libre)
        invariant KernelReap.FreeChilds(Vue(), fils) == KernelReap.FreeChilds(old(Vue()), tete)
        decreases |fils|
      {
        var c, suiv := fils[0], fils[1..];
        ghost var s := Vue();
        NoDupTail(fils);
        FreeChildEffet(s, c);
        if procs[c].etat == ZOMBIE {
          procs := procs[c := procs[c].(etat := MOURANT)];
          assert Vue() == Maj(s, c, s.procs[c].(etat := MOURANT, chainage := Libre));
          Ajouter(c, ProcMourants);
        } else {
          procs := procs[c := procs[c].(pere := NULL)];
        }
        assert Vue() == FreeChild(s, c);
        fils := suiv;
      }
    }

    method FreeMourantQueue()
      requires Moissonnable(Vue())
      modifies this`procs, this`anneaux, this`libres
      ensures Vue() == KernelReap.FreeMourantQueue(old(Vue()))
    {
      hide Moissonnable, FreeOne, Chainages;
      ghost var s0 := Vue();
      Moisson(s0);
      var procMort := Sortir(ProcMourants);
      while procMort != NULL
        invariant Moissonnable(s0) && KernelReap.FreeMourantQueue(s0) == KernelReap.FreeMourantQueue(old(Vue()))
        invariant if procMort == NULL then Chaine(s0, ProcMourants) == [] && Vue() == s0
                  else
                    && Chaine(s0, ProcMourants) != [] && procMort == Chaine(s0, ProcMourants)[0]
                    && procMort in s0.procs && Vue() == QueueDel(s0, procMort)
        decreases |s0.procs|, procMort != NULL
      {
        FreeOnePret(s0, procMort);
        FreeChilds(procs[procMort].fils);
        procs := procs - {procMort};
        libres := [procMort] + libres;
        s0 := TourSuivant(s0, procMort, Vue());
        procMort := Sortir(ProcMourants);
      }
    }

    // ----- kernel/processus.c -----------------------------------------------------------------------

    method Ordonnanceur()
      requires Coherent(Vue()) && DefuntsSansPere(Vue()) && !Condamne(Vue(), elu)
      modifies this
      ensures Vue() == KernelSched.Ordonnanceur(old(Vue()))
    {
      hide Remettre, Elire, QueueAdd, QueueDel, Coherent, KernelReap.FreeMourantQueue, Moissonnable, Chainages;
      CommutationPrete(Vue());
      FreeMourantQueue();
      ghost var s := Vue();
      if Liste(ProcActivables) != [] {
        var actuel := elu;
        if procs[actuel].etat == MOURANT {
          Ajouter(actuel, ProcMourants);
        } else if procs[actuel].etat == ELU || procs[actuel].etat == ACTIVABLE {
          procs := procs[actuel := procs[actuel].(etat := ACTIVABLE)];
          Ajouter(actuel, ProcActivables);
        }
        RemettreAjout(s, Vue());
        var suivant := Sortir(ProcActivables);
        assert suivant != NULL;
        procs := procs[suivant := procs[suivant].(etat := ELU)];
        elu := suivant;
        ElireSortie(Remettre(s), suivant, Vue());
      }
    }

    /** The call of ordonnanceur at the end of most calls. */
    method Commuter(commute: bool)
      requires Coherent(Vue()) && DefuntsSansPere(Vue()) && procs[elu].etat == ELU
      modifies this
      ensures Vue() == Finir(old(Vue()), commute)
    {
      if commute {
        EluSauf(Vue());
        Ordonnanceur();
      }
    }

    method Start(prio: int, alloue: bool) returns (r: Retour)
      requires Inv(Vue())
      modifies this
      ensures EnIssue(r, Vue()) == KernelStart.Start(old(Vue()), prio, alloue)
    {
      hide Coherent, QueueAdd, Finir;
      ghost var s := Vue();
      EluConnu(s);
      if libres == [] {
        return Code(-1, 0);
      }
      var pid := libres[0];
      libres := libres[1..];
      if prio <= 0 || prio > PRIO_MAX || !alloue {
        libres := [pid] + libres;
        assert libres == s.libres;
        return Code(-1, 0);
      }
      ghost var s2 := NouveauPret(s, prio);
      var proc := Processus(ACTIVABLE, prio, 0, Libre, NULL, [], 0, 0, 0, 0, Utilisateur);
      if elu != IDLE {
        proc := proc.(pere := elu);
        procs := procs[elu := procs[elu].(fils := [pid] + procs[elu].fils)];
      }
      procs := procs[pid := proc];
      assert Vue() == Inscrit(s, Nouveau(s, prio, ACTIVABLE));
      Ajouter(pid, ProcActivables);
      assert Vue() == s2;
      Commuter(prio > procs[elu].prio);
      return Code(pid, 0);
    }

    /** `mot` is the word the comparison of line 239 reads: see KernelStart.Chprio. */
    method Chprio(pid: int, newPrio: int, mot: int) returns (r: Retour)
      requires Inv(Vue())
      modifies this
      ensures EnIssue(r, Vue()) == KernelStart.Chprio(old(Vue()), pid, newPrio, mot)
      ensures if 0 < pid < MAX_PROCESS && 0 < newPrio <= PRIO_MAX && pid in old(procs) && old(procs[pid]).etat != ZOMBIE
        then r == Code(old(procs[pid]).prio, 0) && pid in procs && procs[pid].prio == newPrio
        else r == Code(-1, 0) && Vue() == old(Vue())
    {
      hide Coherent, QueueAdd, QueueDel, Finir, Chaine, Maj;
      ghost var s := Vue();
      EluConnu(s);
      ChprioChange(s, pid, newPrio, mot);
      if pid <= 0 || pid >= MAX_PROCESS || newPrio <= 0 || newPrio > PRIO_MAX {
        return Code(-1, 0);
      }
      if pid !in procs || procs[pid].etat == ZOMBIE {
        return Code(-1, 0);
      }
      Sujet(s, pid);
      var ancienne, etat := procs[pid].prio, procs[pid].etat;
      procs := procs[pid := procs[pid].(prio := newPrio)];
      assert Vue() == Maj(s, pid, s.procs[pid].(prio := newPrio)) by { MajDef(s, pid, s.procs[pid].(prio := newPrio)); }
      if pid == elu {
        MajPrioCoherent(s, pid, newPrio);
        Commuter(newPrio < mot);
      } else if etat == ACTIVABLE {
        ReplacerCoherent(s, pid, newPrio, ProcActivables);
        Replacer(s, pid, newPrio, ProcActivables);
        Commuter(procs[elu].prio < newPrio);
      } else if etat == ATTEND_FILE {
        var fid := procs[pid].fid;
        FileDuBloque(s, pid);
        assert fid in files;
        Replacer(s, pid, newPrio, AttenteFile(fid));
      }
      return Code(ancienne, 0);
    }

    /** queue_del then queue_add, of a process whose priority has just been changed. */
    method Replacer(ghost s: Noyau, p: int, newPrio: int, r: Anneau)
      requires Chainages(s) && p in s.procs && s.procs[p].chainage == Dans(r)
      requires Vue() == Maj(s, p, s.procs[p].(prio := newPrio))
      modifies this`procs, this`anneaux
      ensures Vue() == Deplacer(s, p, s.procs[p].(prio := newPrio), r)
    {
      hide QueueAdd, QueueDel, Maj;
      OterMaj(s, p, s.procs[p].(prio := newPrio), r);
      Oter(p);
      Ajouter(p, r);
    }

    method WaitClock(ticks: int) returns (r: Retour)
      requires Inv(Vue()) && elu != IDLE
      modifies this
      ensures EnIssue(r, Vue()) == KernelClock.WaitClock(old(Vue()), ticks)
    {
      hide Coherent, QueueAdd;
      ghost var s := Vue();
      EluConnu(s);
      ghost var rec := procs[elu].(etat := ENDORMI, secReveille := ticks, suite := Utilisateur);
      Suspension(s, rec, ProcEndormis);
      procs := procs[elu := procs[elu].(etat := ENDORMI, secReveille := ticks, suite := Utilisateur)];
      Ajouter(elu, ProcEndormis);
      Ordonnanceur();
      return Suspendu;
    }

    /** cons_read when no line is available. */
    method ConsRead() returns (r: Retour)
      requires Inv(Vue()) && elu != IDLE
      modifies this
      ensures EnIssue(r, Vue()) == ConsReadBloque(old(Vue()))
    {
      hide Coherent, QueueAdd;
      ghost var s := Vue();
      EluConnu(s);
      ghost var rec := procs[elu].(etat := ATTEND_ES, suite := DansConsRead);
      Suspension(s, rec, ProcBloqueEs);
      procs := procs[elu := procs[elu].(etat := ATTEND_ES, suite := DansConsRead)];
      Ajouter(elu, ProcBloqueEs);
      Ordonnanceur();
      return Suspendu;
    }

    method VerifieEs()
      requires Inv(Vue())
      modifies this
      ensures Vue() == KernelClock.VerifieEs(old(Vue()))
    {
      hide QueueAdd, QueueDel, Finir, Tri, Files, Sems, Trie, Famille;
      ghost var s := Vue();
      var current := Sortir(ProcBloqueEs);
      if current == NULL {
        return;
      }
      EnAttenteEs(s);
      ReveilCoherent(s, current, s.procs[current]);
      procs := procs[current := procs[current].(etat := ACTIVABLE)];
      Ajouter(current, ProcActivables);
      assert Vue() == Reveil(s, current, s.procs[current]);
      Commuter(procs[elu].prio > procs[current].prio);
    }

    /** The loop of verifie_reveille walks the ring from the far side; after a deletion its
        cursor lands again on the last element (see Ring.Queue.DrainUpTo). */
    method VerifieReveille(ticks: int)
      requires Inv(Vue())
      modifies this
      ensures Vue() == KernelClock.VerifieReveille(old(Vue()), ticks)
    {
      hide QueueAdd, QueueDel, Finir, Coherent, Maj, Depasse, Veille, Eveiller, Restants;
      ghost var s := Vue();
      ghost var q := Chaine(s, ProcEndormis);
      ghost var n: nat := |q|;
      EluConnu(s);
      var callOrdonnanceur, procEluPrio := false, procs[elu].prio;
      DebutVeille(s, ticks);
      while Liste(ProcEndormis) != []
        invariant Veille(s, q, n, ticks, Vue())
        invariant callOrdonnanceur <==> Depasse(s, q[n..], procEluPrio)
        decreases n
      {
        var current := Liste(ProcEndormis)[|Liste(ProcEndormis)|-1];
        Reveillable(s, q, n, ticks, Vue());
        if procs[current].secReveille > ticks {
          break;
        }
        ghost var s1 := Vue();
        procs := procs[current := procs[current].(etat := ACTIVABLE)];
        assert Vue() == Maj(s1, current, s1.procs[current].(etat := ACTIVABLE)) by { MajDef(s1, current, s1.procs[current].(etat := ACTIVABLE)); }
        OterMaj(s1, current, s1.procs[current].(etat := ACTIVABLE), ProcEndormis);
        Oter(current);
        Ajouter(current, ProcActivables);
        UnDeMoins(s, q, n, ticks, s1, Vue());
        if procs[current].prio > procEluPrio {
          callOrdonnanceur := true;
        }
        n := n - 1;
      }
      FinVeille(s, q, n, ticks, Vue());
      Commuter(callOrdonnanceur);
    }

    /** The father of a dying process, if it is waiting, becomes ready. */
    method PrevenirPere(pere: int)
      requires pere in procs && (procs[pere].etat == ATTEND_FILS ==> procs[pere].chainage == Libre)
      modifies this`procs, this`anneaux
      ensures Vue() == ReveilPere(old(Vue()), pere)
    {
      ghost var s := Vue();
      if procs[pere].etat == ATTEND_FILS {
        procs := procs[pere := procs[pere].(etat := ACTIVABLE)];
        assert Vue() == Maj(QueueDel(s, pere), pere, s.procs[pere].(etat := ACTIVABLE).(chainage := Libre));
        Ajouter(pere, ProcActivables);
      }
    }

    method Exit(retval: int) returns (r: Retour)
      requires Inv(Vue()) && elu != IDLE && !Fatal(Vue(), SysExit(retval))
      modifies this
      ensures EnIssue(r, Vue()) == KernelDeath.Exit(old(Vue()), retval)
    {
      hide Coherent, ReveilPere, Detacher, Mourir, Condamne, KernelSched.Ordonnanceur;
      ghost var s := Vue();
      EluConnu(s);
      ghost var e := procs[elu].(retval := retval);
      Partir(s, e, true);
      ExitQuitte(s, retval);
      procs := procs[elu := procs[elu].(retval := retval)];
      var pere := procs[elu].pere;
      if pere != NULL {
        procs := procs[elu := procs[elu].(etat := ZOMBIE)];
        assert procs == s.procs[elu := e.(etat := ZOMBIE)];
        PrevenirPere(pere);
      } else {
        procs := procs[elu := procs[elu].(etat := MOURANT)];
        assert procs == s.procs[elu := e.(etat := MOURANT)];
      }
      assert Vue() == Mourir(s, e, true);
      Ordonnanceur();
      return Suspendu;
    }

    method Kill(pid: int) returns (r: Retour)
      requires Inv(Vue()) && !Fatal(Vue(), SysKill(pid))
      modifies this
      ensures EnIssue(r, Vue()) == KernelDeath.Kill(old(Vue()), pid)
      ensures if 0 < pid < MAX_PROCESS && pid in old(procs) && old(procs[pid]).etat != ZOMBIE && old(procs[pid]).etat != MOURANT
        then
          && (pid != old(elu) ==> r == Code(0, 0) && elu == old(elu))
          && (pid in procs ==> procs[pid].etat == ZOMBIE || procs[pid].etat == MOURANT) && (pid !in procs ==> pid in libres)
        else r == Code(-1, 0) && Vue() == old(Vue())
    {
      hide Coherent, ReveilPere, Mourir, QueueDel, QueueAdd, KernelReap.FreeMourantQueue;
      ghost var s := Vue();
      EluConnu(s);
      KillTermine(s, pid);
      if pid <= 0 || pid >= MAX_PROCESS || pid !in procs {
        return Code(-1, 0);
      }
      if procs[pid].etat == ZOMBIE || procs[pid].etat == MOURANT {
        return Code(-1, 0);
      }
      if pid == elu {
        Partir(s, procs[elu], false);
        KillQuitte(s);
        procs := procs[elu := procs[elu].(etat := if procs[elu].pere != NULL then ZOMBIE else MOURANT)];
        assert Vue() == Mourir(s, s.procs[s.elu], false);
        Ordonnanceur();
        return Suspendu;
      }
      Victime(s, pid);
      assert procs[pid].chainage != Libre;
      Oter(pid);
      var pere := procs[pid].pere;
      if pere != NULL {
        procs := procs[pid := procs[pid].(etat := ZOMBIE)];
        assert Vue() == Detacher(s, pid, s.procs[pid].(etat := ZOMBIE));
        PrevenirPere(pere);
      } else {
        procs := procs[pid := procs[pid].(etat := MOURANT)];
        Ajouter(pid, ProcMourants);
        assert Vue() == Deplacer(s, pid, s.procs[pid].(etat := MOURANT), ProcMourants);
      }
      FreeMourantQueue();
      return Code(0, 0);
    }

    method Waitpid(pid: int) returns (r: Retour)
      requires Inv(Vue()) && elu != IDLE
      modifies this
      ensures EnIssue(r, Vue()) == KernelDeath.Waitpid(old(Vue()), pid)
    {
      hide BoucleWaitpid, KernelDeath.Waitpid;
      EluConnu(Vue());
      WaitpidInv(Vue(), pid);
      if pid >= MAX_PROCESS {
        FilsBornes(Vue());
        return Code(-1, 0);
      }
      if pid >= 0 {
        FilsDuPere(Vue(), pid);
        if pid !in procs || procs[pid].pere != elu {
          return Code(-1, 0);
        }
      } else if procs[elu].fils == [] {
        return Code(-1, 0);
      }
      r := AttendreFils(pid);
    }

    /** The search for any zombie child: the first one in the list, NULL if there is none. */
    method ChercherZombie() returns (c: int)
      requires elu in procs && forall x :: x in procs[elu].fils ==> x in procs && x != NULL
      ensures c == PremierZombie(Vue(), procs[elu].fils)
    {
      ghost var s := Vue();
      var fils := procs[elu].fils;
      while fils != [] && procs[fils[0]].etat != ZOMBIE
        invariant PremierZombie(s, fils) == PremierZombie(s, s.procs[s.elu].fils)
        invariant forall x :: x in fils ==> x in procs && x != NULL
        invariant fils != [] ==> fils[0] in procs
        decreases |fils|
      {
        assert forall x :: x in fils[1..] ==> x in fils;
        fils := fils[1..];
        assert fils != [] ==> fils[0] in fils;
      }
      if fils == [] {
        return NULL;
      }
      assert fils[0] in fils;
      return fils[0];
    }

    /** The search for the link that points to the child c. */
    method RangDuFils(c: int) returns (k: nat)
      requires elu in procs && c in procs[elu].fils
      ensures k == SlotOf(procs[elu].fils, c)
    {
      var freres := procs[elu].fils;
      k := 0;
      while freres[k] != c
        invariant 0 <= k <= SlotOf(freres, c) < |freres|
        decreases |freres| - k
      {
        k := k + 1;
      }
    }

    /** The waiting loops of waitpid, from their test on. */
    method AttendreFils(pid: int) returns (r: Retour)
      requires Inv(Vue()) && elu != IDLE && (pid >= 0 ==> pid in procs[elu].fils)
      modifies this
      ensures EnIssue(r, Vue()) == BoucleWaitpid(old(Vue()), pid)
    {
      hide Coherent, Deplacer, Detacher, QueueAdd, KernelReap.FreeMourantQueue, KernelSched.Ordonnanceur, Recueilli;
      hide Moissonnable, Condamne, DefuntsSansPere, PremierZombie;
      ghost var s := Vue();
      EluConnu(s);
      FilsConnus(s);
      var c := NULL;
      if pid >= 0 {
        if procs[pid].etat == ZOMBIE {
          c := pid;
        }
      } else {
        c := ChercherZombie();
      }
      if c == NULL {
        Endormir(s, pid);
        procs := procs[elu := procs[elu].(etat := ATTEND_FILS, suite := DansWaitpid(pid))];
        Ordonnanceur();
        return Suspendu;
      }
      Recueillir(s, c);
      var k := RangDuFils(c);
      procs := procs[elu := procs[elu].(fils := Cut(procs[elu].fils, k), suite := Utilisateur)];
      var retval := procs[c].retval;
      procs := procs[c := procs[c].(etat := MOURANT, pere := NULL)];
      Ajouter(c, ProcMourants);
      assert Vue() == Recueilli(s, c);
      FreeMourantQueue();
      return Code(c, retval);
    }

    // ----- kernel/files.c ---------------------------------------------------------------------------

    /** The draining loops of pdelete, preset, sdelete and sreset; `depasse` is the flag the first
        two keep. */
    method ViderAttente(r: Anneau, status: int) returns (depasse: bool)
      requires Inv(Vue()) && FileDAttente(r)
      modifies this`procs, this`anneaux
      ensures Vue() == ReveillerListe(old(Vue()), Chaine(old(Vue()), r), status)
      ensures depasse <==> Depasse(old(Vue()), Chaine(old(Vue()), r), old(procs[elu].prio))
    {
      hide QueueAdd, QueueDel, Depasse, Drain, ReveillerListe, Coherent;
      ghost var s0, n := Vue(), 0;
      ghost var s := s0;
      EluConnu(s0);
      DebutDrain(s0, r, status);
      var procEluPrio := procs[elu].prio;
      depasse := false;
      var proc := Sortir(r);
      while proc != NULL
        invariant Drain(s0, r, status, n, s) && NULL !in s.procs && n <= |Chaine(s0, r)|
        invariant depasse <==> Depasse(s0, Chaine(s0, r)[..n], procEluPrio)
        invariant if proc == NULL then Chaine(s, r) == [] && Vue() == s
                  else Chaine(s, r) != [] && proc == Chaine(s, r)[0] && proc in s.procs && Vue() == QueueDel(s, proc)
        decreases |Chaine(s, r)|
      {
        SortieDrain(s0, r, status, n, s);
        ghost var lies := procs;
        if r.AttenteFile? {
          procs := procs[proc := procs[proc].(fid := -1)];
        }
        procs := procs[proc := procs[proc].(etat := ACTIVABLE, operationStatus := status)];
        assert procs == lies[proc := procs[proc]];
        if procs[proc].prio > procEluPrio {
          depasse := true;
        }
        Ajouter(proc, ProcActivables);
        PasDrain(s0, r, status, n, s, Vue());
        s, n := Vue(), n + 1;
        proc := Sortir(r);
      }
      FinDrain(s0, r, status, n, s);
    }

    /** getNbMsg and getNbProcs */
    method Compter(q: seq<int>) returns (cpt: nat)
      ensures cpt == |q|
    {
      cpt := 0;
      for i := 0 to |q|
        invariant cpt == i
      {
        cpt := cpt + 1;
      }
    }

    method Pcount(fid: int, nonNul: bool) returns (r: Retour)
      ensures EnIssue(r, Vue()) == KernelFiles.Pcount(Vue(), fid, nonNul)
    {
      if fid !in files {
        return Code(-1, 0);
      }
      if !nonNul {
        return Code(-1, 0);
      }
      var nbMsg := Compter(files[fid].queueMsg);
      var nbProc := Compter(Liste(AttenteFile(fid)));
      var count: int := if nbMsg == 0 then -(nbProc as int) else nbMsg + nbProc;
      return Code(0, count);
    }

    method Pcreate(maxMsg: int) returns (r: Retour)
      modifies this`files, this`fidsLibres
      ensures EnIssue(r, Vue()) == KernelFiles.Pcreate(old(Vue()), maxMsg)
    {
      if maxMsg <= 0 || maxMsg > MAXMSG {
        return Code(-1, 0);
      }
      if fidsLibres == [] {
        return Code(-1, 0);
      }
      var fid := fidsLibres[0];
      fidsLibres := fidsLibres[1..];
      files := files[fid := File(maxMsg, [])];
      return Code(fid, 0);
    }

    /** The messages of a queue are freed one by one. */
    method ViderMessages(fid: int)
      requires fid in files
      modifies this`files
      ensures files == old(files)[fid := old(files)[fid].(queueMsg := [])]
    {
      while files[fid].queueMsg != []
        invariant fid in files && files == old(files)[fid := old(files)[fid].(queueMsg := files[fid].queueMsg)]
        decreases |files[fid].queueMsg|
      {
        files := files[fid := files[fid].(queueMsg := files[fid].queueMsg[1..])];
      }
    }

    method Preset(fid: int) returns (r: Retour)
      requires Inv(Vue())
      modifies this
      ensures EnIssue(r, Vue()) == KernelFiles.Preset(old(Vue()), fid)
    {
      hide ReveillerListe, Finir, Coherent;
      EluConnu(Vue());
      if fid !in files {
        return Code(-1, 0);
      }
      ApresVidage(Vue(), fid);
      var callOrdonnanceur := ViderAttente(AttenteFile(fid), 0);
      ViderMessages(fid);
      Commuter(callOrdonnanceur);
      return Code(0, 0);
    }

    method Pdelete(fid: int) returns (r: Retour)
      requires Inv(Vue())
      modifies this
      ensures EnIssue(r, Vue()) == KernelFiles.Pdelete(old(Vue()), fid)
    {
      hide ReveillerListe, Finir, Coherent;
      EluConnu(Vue());
      if fid !in files {
        return Code(-1, 0);
      }
      ApresVidage(Vue(), fid);
      var callOrdonnanceur := ViderAttente(AttenteFile(fid), 0);
      ViderMessages(fid);
      files := files - {fid};
      var k := TrouverRang(fidsLibres, fid);
      fidsLibres := Insert(fidsLibres, k, fid);
      assert Vue() == Retiree(ReveillerListe(old(Vue()), Chaine(old(Vue()), AttenteFile(fid)), 0), fid);
      Commuter(callOrdonnanceur);
      return Code(0, 0);
    }

    /** add_msg, whose assertion is that the queue is not full. */
    method AjouterMessage(fid: int, m: int)
      requires fid in files && |files[fid].queueMsg| < files[fid].maxMsg
      modifies this`files
      ensures files == old(files)[fid := old(files)[fid].(queueMsg := old(files)[fid].queueMsg + [m])]
    {
      files := files[fid := files[fid].(queueMsg := files[fid].queueMsg + [m])];
    }

    /** psend hands the message to the first receiver; the answer says whether it outranks the
        caller. */
    method RemettreMessage(fid: int, message: int, prio: int) returns (depasse: bool)
      requires Coherent(Vue()) && DefuntsSansPere(Vue()) && procs[elu].etat == ELU && Chaine(Vue(), AttenteFile(fid)) != []
      requires var p := Chaine(Vue(), AttenteFile(fid))[0];
        p in procs && p != elu && procs[p].etat == ATTEND_FILE
      modifies this`procs, this`anneaux
      ensures var p := old(Chaine(Vue(), AttenteFile(fid)))[0];
        && p in old(procs) && Vue() == Remise(old(Vue()), p, message) && depasse == (old(procs)[p].prio > prio)
      ensures Coherent(Vue()) && DefuntsSansPere(Vue()) && procs[elu].etat == ELU
    {
      hide QueueAdd, QueueDel, Reveil, Deplacer, Files, Sems, Tri, Famille, Etats;
      ghost var s0 := Vue();
      ghost var rec := procs[Chaine(s0, AttenteFile(fid))[0]].(fid := -1, fileValue := message, operationStatus := 1);
      ReveilPret(s0, fid, rec);
      var proc := Sortir(AttenteFile(fid));
      procs := procs[proc := procs[proc].(fid := -1, fileValue := message, operationStatus := 1, etat := ACTIVABLE)];
      Ajouter(proc, ProcActivables);
      assert Vue() == Remise(s0, proc, message);
      depasse := procs[proc].prio > prio;
    }

    method Psend(fid: int, message: int) returns (r: Retour)
      requires Inv(Vue()) && elu != IDLE
      modifies this
      ensures EnIssue(r, Vue()) == KernelFiles.Psend(old(Vue()), fid, message)
    {
      hide Coherent, QueueAdd, QueueDel, Finir, KernelSched.Ordonnanceur, Reveil, Deplacer;
      ghost var s := Vue();
      EluConnu(s);
      if fid !in files {
        return Code(-1, 0);
      }
      var callOrdonnanceur, procEluPrio := false, procs[elu].prio;
      procs := procs[elu := procs[elu].(fileValue := message, operationStatus := 1)];
      ghost var s0 := Vue();
      ApresNote(s, fid, message);
      if files[fid].queueMsg == [] && Liste(AttenteFile(fid)) != [] {
        callOrdonnanceur := RemettreMessage(fid, message, procEluPrio);
      } else if files[fid].maxMsg == |files[fid].queueMsg| {
        AttentePrete(s, fid, message, DansPsend);
        procs := procs[elu := procs[elu].(fid := fid, etat := ATTEND_FILE, suite := DansPsend)];
        assert Vue() == s.(procs := s.procs[elu := procs[elu]]);
        Ajouter(elu, AttenteFile(fid));
        Ordonnanceur();
        return Suspendu;
      } else {
        AjouterMessage(fid, message);
        assert Vue() == MajFile(s0, fid, s.files[fid].queueMsg + [message]);
        FinirNon(Vue());
      }
      Commuter(callOrdonnanceur);
      return Code(0, 0);
    }

    /** The room preceive has made is filled at once with the message of the first sender. */
    method CompleterFile(ghost s: Noyau, fid: int, procEluPrio: int) returns (callOrdonnanceur: bool)
      requires Inv(s) && fid in s.files && s.files[fid].queueMsg != [] && Chaine(s, AttenteFile(fid)) != []
      requires Chaine(s, AttenteFile(fid))[0] in s.procs && procEluPrio == s.procs[s.elu].prio
      requires Vue() == MajFile(Maj(s, s.elu, Elu(s).(fileValue := -1, operationStatus := 1)), fid, s.files[fid].queueMsg[1..])
      requires Chainages(Vue()) && NULL !in procs && Liste(AttenteFile(fid)) == Chaine(s, AttenteFile(fid))
      modifies this`procs, this`anneaux, this`files
      ensures var p := s.procs[Chaine(s, AttenteFile(fid))[0]];
        var s1 := MajFile(Maj(s, s.elu, Elu(s).(fileValue := -1, operationStatus := 1)), fid, s.files[fid].queueMsg[1..] + [p.fileValue]);
        && callOrdonnanceur == (p.prio > procEluPrio)
        && Vue() == Reveil(s1, Chaine(s, AttenteFile(fid))[0], p.(fid := -1, operationStatus := 1))
        && Coherent(Vue()) && DefuntsSansPere(Vue()) && procs[elu].etat == ELU
    {
      hide Coherent, QueueAdd, QueueDel, Reveil, Deplacer, Inv, Chainages;
      EluConnu(s);
      ghost var avant := Vue();
      ghost var rec := s.procs[Chaine(s, AttenteFile(fid))[0]].(fid := -1, operationStatus := 1);
      EmetteurPret(s, fid, rec);
      var proc := Sortir(AttenteFile(fid));
      ghost var s1 := MajFile(Maj(s, s.elu, Elu(s).(fileValue := -1, operationStatus := 1)), fid, s.files[fid].queueMsg[1..] + [rec.fileValue]);
      procs := procs[proc := procs[proc].(fid := -1)];
      AjouterMessage(fid, procs[proc].fileValue);
      procs := procs[proc := procs[proc].(operationStatus := 1, etat := ACTIVABLE)];
      assert files == s1.files;
      callOrdonnanceur := procs[proc].prio > procEluPrio;
      assert QueueDel(s1, proc) == QueueDel(avant, proc).(files := s1.files) by { QueueDelReste(avant, s1, proc); }
      assert procs == QueueDel(s1, proc).procs[proc := rec.(etat := ACTIVABLE, chainage := Libre)];
      assert Vue() == QueueDel(s1, proc).(procs := QueueDel(s1, proc).procs[proc := rec.(etat := ACTIVABLE, chainage := Libre)]);
      Ajouter(proc, ProcActivables);
      assert Vue() == Reveil(s1, proc, rec);
    }

    method Preceive(fid: int) returns (r: Retour)
      requires Inv(Vue()) && elu != IDLE
      modifies this
      ensures EnIssue(r, Vue()) == KernelFiles.Preceive(old(Vue()), fid)
    {
      hide Coherent, QueueAdd, QueueDel, Finir, KernelSched.Ordonnanceur, Reveil, Deplacer;
      ghost var s := Vue();
      EluConnu(s);
      if fid !in files {
        return Code(-1, 0);
      }
      var callOrdonnanceur, procEluPrio := false, procs[elu].prio;
      procs := procs[elu := procs[elu].(fileValue := -1, operationStatus := 1)];
      ghost var s0 := Vue();
      ApresNote(s, fid, -1);
      if files[fid].queueMsg == [] {
        AttentePrete(s, fid, -1, DansPreceive);
        procs := procs[elu := procs[elu].(fid := fid, etat := ATTEND_FILE, suite := DansPreceive)];
        assert Vue() == s.(procs := s.procs[elu := procs[elu]]);
        Ajouter(elu, AttenteFile(fid));
        Ordonnanceur();
        return Suspendu;
      }
      var val := files[fid].queueMsg[0];
      files := files[fid := files[fid].(queueMsg := files[fid].queueMsg[1..])];
      if Liste(AttenteFile(fid)) != [] {
        SansFiles(s0, Vue());
        callOrdonnanceur := CompleterFile(s, fid, procEluPrio);
      } else {
        assert Vue() == MajFile(s0, fid, s.files[fid].queueMsg[1..]);
        FinirNon(Vue());
      }
      Commuter(callOrdonnanceur);
      return Code(0, val);
    }

    // ----- kernel/semaphore.c -----------------------------------------------------------------------

    method Screate(count: int) returns (r: Retour)
      modifies this`sems, this`sidsLibres
      ensures EnIssue(r, Vue()) == KernelSem.Screate(old(Vue()), count)
    {
      if count < 0 {
        return Code(-1, 0);
      }
      if sidsLibres == [] {
        return Code(-1, 0);
      }
      var sid := sidsLibres[0];
      sidsLibres := sidsLibres[1..];
      sems := sems[sid := count];
      return Code(sid, 0);
    }

    method Sdelete(sid: int) returns (r: Retour)
      requires Inv(Vue())
      modifies this
      ensures EnIssue(r, Vue()) == KernelSem.Sdelete(old(Vue()), sid)
    {
      hide ReveillerListe, Inv;
      if sid !in sems {
        return Code(-1, 0);
      }
      SemVidee(Vue(), sid, -3);
      var _ := ViderAttente(AttenteSem(sid), -3);
      sems := sems - {sid};
      var k := TrouverRang(sidsLibres, sid);
      sidsLibres := Insert(sidsLibres, k, sid);
      return Code(0, 0);
    }

    method Sreset(sid: int, count: int) returns (r: Retour)
      requires Inv(Vue())
      modifies this
      ensures EnIssue(r, Vue()) == KernelSem.Sreset(old(Vue()), sid, count)
    {
      hide ReveillerListe, Inv;
      if sid !in sems || count < 0 {
        return Code(-1, 0);
      }
      SemVidee(Vue(), sid, -4);
      var _ := ViderAttente(AttenteSem(sid), -4);
      sems := sems[sid := count];
      return Code(0, 0);
    }

    method Signal(sid: int) returns (r: Retour)
      requires Inv(Vue()) && !Fatal(Vue(), SysSignal(sid))
      modifies this`procs, this`anneaux, this`sems
      ensures EnIssue(r, Vue()) == KernelSem.Signal(old(Vue()), sid)
    {
      hide Inv, QueueAdd, QueueDel, Reveil, Chainages;
      ghost var s := Vue();
      EluConnu(s);
      if sid !in sems {
        return Code(-1, 0);
      }
      if sems[sid] > SHORTINT_MAX - 1 {
        return Code(-2, 0);
      }
      sems := sems[sid := sems[sid] + 1];
      if sems[sid] <= 0 {
        ghost var s1 := Vue();
        SignalPret(s, sid);
        var proc := Sortir(AttenteSem(sid));
        assert proc != NULL;
        procs := procs[proc := procs[proc].(etat := ACTIVABLE, operationStatus := 1)];
        Ajouter(proc, ProcActivables);
        assert Vue() == Reveil(s1, proc, s.procs[proc].(operationStatus := 1));
      }
      return Code(0, 0);
    }

    method Signaln(sid: int, count: int) returns (r: Retour)
      requires Inv(Vue()) && !Fatal(Vue(), SysSignaln(sid, count))
      modifies this`procs, this`anneaux, this`sems
      ensures EnIssue(r, Vue()) == KernelSem.Signaln(old(Vue()), sid, count)
    {
      hide Inv, Signaux, KernelSem.Signal;
      ghost var s := Vue();
      if sid !in sems {
        return Code(-1, 0);
      }
      if sems[sid] > SHORTINT_MAX - count {
        return Code(-2, 0);
      }
      SignalnPanique(s, sid, count);
      var i := 0;
      while i < count
        invariant 0 <= i && (i <= count || count < 0)
        invariant Inv(Vue()) && sid in sems && (i < count ==> sems[sid] + (count - i) <= SHORTINT_MAX)
        invariant Signaux(Vue(), sid, count - i) == Signaux(s, sid, count) && !Signaux(s, sid, count).Panique?
      {
        SignauxAvance(Vue(), sid, count - i);
        var _ := Signal(sid);
        i := i + 1;
      }
      SignauxVide(Vue(), sid, count - i);
      return Code(0, 0);
    }

    method TryWait(sid: int) returns (r: Retour)
      modifies this`sems
      ensures EnIssue(r, Vue()) == KernelSem.TryWait(old(Vue()), sid)
    {
      if sid !in sems {
        return Code(-1, 0);
      }
      if sems[sid] < SHORTINT_MIN + 1 {
        return Code(-2, 0);
      }
      if sems[sid] <= 0 {
        return Code(-3, 0);
      }
      sems := sems[sid := sems[sid] - 1];
      return Code(0, 0);
    }

    method Wait(sid: int) returns (r: Retour)
      requires Inv(Vue()) && elu != IDLE
      modifies this
      ensures EnIssue(r, Vue()) == KernelSem.Wait(old(Vue()), sid)
      ensures sid in old(sems) && old(sems)[sid] > SHORTINT_MIN ==>
        && sems == old(sems)[sid := old(sems)[sid] - 1] && (r == Suspendu <==> old(sems)[sid] <= 0) && (r != Suspendu ==> r == Code(0, 0))
        && Chaine(Vue(), AttenteSem(sid)) == Chaine(old(Vue()), AttenteSem(sid)) + if r == Suspendu then [old(elu)] else []
    {
      hide Inv, Coherent, QueueAdd, KernelSched.Ordonnanceur, Deplacer;
      ghost var s := Vue();
      EluConnu(s);
      AttenteComptee(s, sid);
      if sid !in sems {
        return Code(-1, 0);
      }
      if sems[sid] < SHORTINT_MIN + 1 {
        return Code(-2, 0);
      }
      sems := sems[sid := sems[sid] - 1];
      if sems[sid] < 0 {
        WaitPret(s, sid);
        procs := procs[elu := procs[elu].(etat := ATTEND_SEMAPHORE, suite := DansWait)];
        Ajouter(elu, AttenteSem(sid));
        Ordonnanceur();
        return Suspendu;
      }
      return Code(0, 0);
    }

    // ----- After the switch ---------------------------------------------------------------------------

    /** The running process, elected again, goes on inside the call it was suspended in. */
    method Reprendre(pret: bool) returns (r: Retour)
      requires Inv(Vue()) && elu != IDLE
      modifies this
      ensures EnIssue(r, Vue()) == KernelSteps.Reprendre(old(Vue()), pret)
      ensures old(elu) in old(procs) && old(procs)[old(elu)].suite == DansWait ==>
        r == Code(if old(procs)[old(elu)].operationStatus < 0 then old(procs)[old(elu)].operationStatus else 0, 0)
    {
      hide Inv, BoucleWaitpid, ConsReadBloque;
      EluConnu(Vue());
      var e := procs[elu];
      match e.suite {
        case Utilisateur =>
          return Code(0, 0);
        case DansWaitpid(cible) =>
          CibleDuFils(Vue());
          r := AttendreFils(cible);
        case DansConsRead =>
          if pret {
            procs := procs[elu := e.(suite := Utilisateur)];
            return Code(0, 0);
          }
          r := ConsRead();
        case DansPsend =>
          procs := procs[elu := e.(suite := Utilisateur)];
          if e.operationStatus == 0 {
            return Code(-1, 0);
          }
          return Code(0, 0);
        case DansPreceive =>
          procs := procs[elu := e.(suite := Utilisateur)];
          if e.operationStatus == 0 {
            return Code(-1, e.fileValue);
          }
          return Code(0, e.fileValue);
        case DansWait =>
          procs := procs[elu := e.(suite := Utilisateur)];
          if e.operationStatus < 0 {
            return Code(e.operationStatus, 0);
          }
          return Code(0, 0);
      }
    }

    // ----- Every way into the kernel --------------------------------------------------------------------

    method AppelProcessus(a: Appel) returns (r: Retour)
      requires Inv(Vue()) && Legal(Vue(), a) && !Fatal(Vue(), a)
      requires a.SysStart? || a.SysChprio? || a.SysExit? || a.SysKill? || a.SysWaitpid? || a.SysWaitClock? || a.SysConsRead?
      modifies this
      ensures EnIssue(r, Vue()) == Faire(old(Vue()), a)
    {
      hide Inv, EnIssue, Condamne, KernelStart.Start, KernelStart.Chprio, KernelDeath.Exit, KernelDeath.Kill, KernelDeath.Waitpid;
      hide KernelClock.WaitClock, ConsReadLu, ConsReadBloque;
      match a {
        case SysStart(prio, alloue) => r := Start(prio, alloue);
        case SysChprio(pid, newPrio, mot) => r := Chprio(pid, newPrio, mot);
        case SysExit(retval) => r := Exit(retval);
        case SysKill(pid) => r := Kill(pid);
        case SysWaitpid(pid) => r := Waitpid(pid);
        case SysWaitClock(ticks) => r := WaitClock(ticks);
        case SysConsRead(pret) => r := LireOuAttendre(pret);
      }
    }

    method AppelFile(a: Appel) returns (r: Retour)
      requires Inv(Vue()) && Legal(Vue(), a)
      requires a.SysPcreate? || a.SysPdelete? || a.SysPreset? || a.SysPcount? || a.SysPsend? || a.SysPreceive?
      modifies this
      ensures EnIssue(r, Vue()) == Faire(old(Vue()), a)
    {
      hide Inv, EnIssue, KernelFiles.Pcreate, KernelFiles.Pdelete, KernelFiles.Preset, KernelFiles.Psend, KernelFiles.Preceive;
      match a {
        case SysPcreate(maxMsg) => r := Pcreate(maxMsg);
        case SysPdelete(fid) => r := Pdelete(fid);
        case SysPreset(fid) => r := Preset(fid);
        case SysPcount(fid, nonNul) => r := Pcount(fid, nonNul);
        case SysPsend(fid, message) => r := Psend(fid, message);
        case SysPreceive(fid) => r := Preceive(fid);
      }
    }

    method AppelSem(a: Appel) returns (r: Retour)
      requires Inv(Vue()) && Legal(Vue(), a) && !Fatal(Vue(), a)
      requires a.SysScreate? || a.SysSdelete? || a.SysSreset? || a.SysScount? || a.SysSignal? || a.SysSignaln?
               || a.SysTryWait? || a.SysWait?
      modifies this
      ensures EnIssue(r, Vue()) == Faire(old(Vue()), a)
    {
      hide Inv, EnIssue, KernelSem.Screate, KernelSem.Sdelete, KernelSem.Sreset, KernelSem.Signal, KernelSem.Signaln, KernelSem.TryWait, KernelSem.Wait;
      match a {
        case SysScreate(count) => r := Screate(count);
        case SysSdelete(sid) => r := Sdelete(sid);
        case SysSreset(sid, count) => r := Sreset(sid, count);
        case SysScount(sid) => r := Scount(sid);
        case SysSignal(sid) => r := Signal(sid);
        case SysSignaln(sid, n) => r := Signaln(sid, n);
        case SysTryWait(sid) => r := TryWait(sid);
        case SysWait(sid) => r := Wait(sid);
      }
    }

    method Interruption(a: Appel) returns (r: Retour)
      requires Inv(Vue()) && Legal(Vue(), a) && (a.Reprise? || a.Reveils? || a.Tranche? || a.Clavier?)
      modifies this
      ensures EnIssue(r, Vue()) == Faire(old(Vue()), a)
    {
      hide Inv, EnIssue, Coherent, DefuntsSansPere, Condamne;
      hide KernelSteps.Reprendre, KernelClock.VerifieReveille, KernelClock.VerifieEs, KernelSched.Ordonnanceur;
      match a {
        case Reprise(pret) => r := Reprendre(pret);
        case Reveils(ticks) =>
          VerifieReveille(ticks);
          r := Code(0, 0);
        case Tranche =>
          PretAChanger(Vue());
          Ordonnanceur();
          r := Code(0, 0);
        case Clavier =>
          VerifieEs();
          r := Code(0, 0);
      }
      EnIssueEtat(r, Vue());
    }

    /** The code does what the step function says, and keeps the invariant. */
    method Executer(a: Appel) returns (r: Retour)
      requires Inv(Vue()) && Legal(Vue(), a) && !Fatal(Vue(), a)
      modifies this
      ensures EnIssue(r, Vue()) == Faire(old(Vue()), a) && Inv(Vue())
      ensures old(Bornes(Vue())) ==>
        && Bornes(Vue()) && KernelWrites.Devient(KernelWrites.Ecrits(old(Vue()), a), Vue())
        && KernelReplies.Repond(old(Vue()), a, EnIssue(r, Vue()))
        && files == KernelReplies.FilesApres(old(Vue()), a) && sems == KernelReplies.SemsApres(old(Vue()), a)
    {
      hide Inv, EnIssue, Faire, Legal, Fatal, Bornes, KernelWrites.Devient, KernelWrites.Ecrits, KernelReplies.Repond;
      hide KernelReplies.FilesApres, KernelReplies.SemsApres;
      FaireInv(Vue(), a);
      if Bornes(Vue()) { FaireTout(Vue(), a); }
      if a.SysStart? || a.SysChprio? || a.SysExit? || a.SysKill? || a.SysWaitpid? || a.SysWaitClock? || a.SysConsRead? {
        r := AppelProcessus(a);
      } else if a.SysPcreate? || a.SysPdelete? || a.SysPreset? || a.SysPcount? || a.SysPsend? || a.SysPreceive? {
        r := AppelFile(a);
      } else if a.Reprise? || a.Reveils? || a.Tranche? || a.Clavier? {
        r := Interruption(a);
      } else {
        r := AppelSem(a);
      }
      EnIssueEtat(r, Vue());
    }

    method Scount(sid: int) returns (r: Retour)
      ensures EnIssue(r, Vue()) == KernelSem.Scount(Vue(), sid)
    {
      if sid !in sems {
        return Code(-1, 0);
      }
      return Code(sems[sid], 0);
    }

    method LireOuAttendre(pret: bool) returns (r: Retour)
      requires Inv(Vue()) && elu != IDLE
      modifies this
      ensures EnIssue(r, Vue()) == if pret then ConsReadLu(old(Vue())) else ConsReadBloque(old(Vue()))
    {
      hide ConsReadBloque, Inv;
      EluConnu(Vue());
      if pret {
        procs := procs[elu := procs[elu].(suite := Utilisateur)];
        return Code(0, 0);
      }
      r := ConsRead();
    }
  }

  // ----- What the steps do, for the methods ------------------------------------------------------------

  lemma FaireTout(s: Noyau, a: Appel)
    requires Inv(s) && Bornes(s) && Legal(s, a) && !Faire(s, a).Panique?
    ensures var i := Faire(s, a);
      && Bornes(i.s) && KernelWrites.Devient(KernelWrites.Ecrits(s, a), i.s) && KernelReplies.Repond(s, a, i)
      && i.s.files == KernelReplies.FilesApres(s, a) && i.s.sems == KernelReplies.SemsApres(s, a)
  {
    hide Faire, Inv, Bornes, KernelWrites.Devient, KernelWrites.Ecrits, KernelReplies.Repond;
    BornesGardees(s, a);
    KernelWrites.FaireEcrits(s, a);
    KernelReplies.FaireRepond(s, a);
    KernelReplies.FaireTables(s, a);
  }

  lemma AttenteComptee(s: Noyau, sid: int)
    requires Inv(s) && s.elu != IDLE
    ensures s.elu in s.procs && (sid in s.sems && s.sems[sid] > SHORTINT_MIN ==>
      var i := KernelSem.Wait(s, sid);
      && !i.Panique? && i.s.sems == s.sems[sid := s.sems[sid] - 1] && (i.Suspend? <==> s.sems[sid] <= 0)
      && (i.Rend? ==> i.code == 0 && i.valeur == 0)
      && Chaine(i.s, AttenteSem(sid)) == Chaine(s, AttenteSem(sid)) + if i.Suspend? then [s.elu] else [])
  {
    hide KernelSem.Wait, Inv;
    EluConnu(s);
    if sid in s.sems { WaitEffet(s, sid); }
  }

  lemma ChprioChange(s: Noyau, pid: int, newPrio: int, mot: int)
    requires Inv(s)
    ensures var i := KernelStart.Chprio(s, pid, newPrio, mot);
      if 0 < pid < MAX_PROCESS && 0 < newPrio <= PRIO_MAX && pid in s.procs && s.procs[pid].etat != ZOMBIE then
        i.Rend? && i.code == s.procs[pid].prio && i.valeur == 0 && pid in i.s.procs && i.s.procs[pid].prio == newPrio
      else i == Rend(s, -1, 0)
  {
    hide KernelStart.Chprio, KernelEffects.Derriere, Inv;
    KernelEffects.ChprioEffet(s, pid, newPrio, mot);
    ChprioSansValeur(s, pid, newPrio, mot);
  }

  lemma ChprioSansValeur(s: Noyau, pid: int, newPrio: int, mot: int)
    requires Inv(s)
    ensures KernelStart.Chprio(s, pid, newPrio, mot).Rend? && KernelStart.Chprio(s, pid, newPrio, mot).valeur == 0
  {
    hide Finir, Deplacer;
  }

  /** A kill that is not refused ends its victim. */
  lemma KillTermine(s: Noyau, pid: int)
    requires Inv(s) && !Fatal(s, SysKill(pid))
    ensures var i := KernelDeath.Kill(s, pid);
      if 0 < pid < MAX_PROCESS && pid in s.procs && s.procs[pid].etat != ZOMBIE && s.procs[pid].etat != MOURANT then
        && (pid != s.elu ==> i.Rend? && i.code == 0 && i.valeur == 0 && i.s.elu == s.elu) && !i.Panique?
        && (pid in i.s.procs ==> i.s.procs[pid].etat == ZOMBIE || i.s.procs[pid].etat == MOURANT) && (pid !in i.s.procs ==> pid in i.s.libres)
      else i == Rend(s, -1, 0)
  {
    hide KernelDeath.Kill, Inv, KernelWrites.Frappe, KernelReap.FreeMourantQueue;
    EluConnu(s);
    KillPanique(s, pid);
    if KernelWrites.KillValide(s, pid) {
      KillInv(s, pid);
      if pid == s.elu {
        KernelEffects.MortDuCourant(s, 0);
      } else {
        KernelEffects.KillTue(s, pid);
        KernelWrites.KillFrappe(s, pid);
        KernelReplies.FrappeElu(s, pid);
      }
    } else {
      KernelWrites.Refus(s, SysKill(pid));
      KillCasRefus(s, pid);
    }
  }

  lemma KillCasRefus(s: Noyau, pid: int)
    requires s.elu in s.procs && !KernelWrites.KillValide(s, pid)
    ensures KernelDeath.Kill(s, pid) == Rend(s, -1, 0)
  {
  }

  // ----- Draining a waiting list --------------------------------------------------------------------

  /** The first `n` waiters of `r` in state `s0` have been woken. */
  ghost predicate Drain(s0: Noyau, r: Anneau, status: int, n: nat, s: Noyau) {
    var q := Chaine(s0, r);
    && FileDAttente(r) && n <= |q| && Chaine(s, r) == q[n..]
    && Coherent(s) && s.elu in s.procs && s.procs[s.elu].etat == ELU && s.elu == s0.elu && Chainages(s)
    && ReveillerListe(s, Chaine(s, r), status) == ReveillerListe(s0, q, status)
    && s.procs.Keys == s0.procs.Keys && forall x :: x in s0.procs ==> s.procs[x].prio == s0.procs[x].prio
  }

  lemma DebutDrain(s: Noyau, r: Anneau, status: int)
    requires Inv(s) && FileDAttente(r)
    ensures Drain(s, r, status, 0, s) && !Depasse(s, Chaine(s, r)[..0], s.procs[s.elu].prio) && NULL !in s.procs && Chainages(s)
  {
    assert Chaine(s, r)[0..] == Chaine(s, r);
  }

  lemma FinDrain(s0: Noyau, r: Anneau, status: int, n: nat, s: Noyau)
    requires Drain(s0, r, status, n, s) && Chaine(s, r) == []
    ensures Chaine(s0, r)[..n] == Chaine(s0, r) && s == ReveillerListe(s0, Chaine(s0, r), status)
  {
  }

  lemma SortieDrain(s0: Noyau, r: Anneau, status: int, n: nat, s: Noyau)
    requires Drain(s0, r, status, n, s) && Chaine(s, r) != []
    ensures var p := Chaine(s, r)[0]; n < |Chaine(s0, r)| && p == Chaine(s0, r)[n] && p in s.procs && s.procs[p].chainage == Dans(r)
    ensures var p := Chaine(s, r)[0]; p in QueueDel(s, p).procs && QueueDel(s, p).procs[p] == s.procs[p].(chainage := Libre)
  {
    TeteBloquee(s, r);
  }

  lemma PasDrain(s0: Noyau, r: Anneau, status: int, n: nat, s: Noyau, s': Noyau)
    requires Drain(s0, r, status, n, s) && Chaine(s, r) != [] && NULL !in s.procs && Chaine(s, r)[0] in s.procs
    requires var p := Chaine(s, r)[0];
      var x := s.procs[p].(chainage := Libre);
      var y := if r.AttenteFile? then x.(fid := -1) else x;
      var s1 := QueueDel(s, p);
      s' == QueueAdd(s1.(procs := s1.procs[p := y.(etat := ACTIVABLE, operationStatus := status)]), ProcActivables, p)
    ensures Drain(s0, r, status, n + 1, s') && NULL !in s'.procs && Chainages(s') && |Chaine(s', r)| < |Chaine(s, r)|
    ensures n < |Chaine(s0, r)|
    ensures forall seuil {:trigger Depasse(s0, Chaine(s0, r)[..n+1], seuil)} ::
      Depasse(s0, Chaine(s0, r)[..n+1], seuil) <==> Depasse(s0, Chaine(s0, r)[..n], seuil) || s.procs[Chaine(s, r)[0]].prio > seuil
  {
    hide QueueAdd, QueueDel, Reveil, Coherent, ReveillerListe, Depasse, NoDup;
    var q, p := Chaine(s0, r), Chaine(s, r)[0];
    ReveilMarque(s, r, status, s');
    DepasseUnAvant(s0, q, n, s.procs[p].prio);
    assert q[n..][1..] == q[n+1..];
  }

  lemma ReveilMarque(s: Noyau, r: Anneau, status: int, s': Noyau)
    requires Coherent(s) && s.procs[s.elu].etat == ELU && FileDAttente(r) && Chaine(s, r) != [] && Chaine(s, r)[0] in s.procs
    requires var p := Chaine(s, r)[0];
      var x := s.procs[p].(chainage := Libre);
      var y := if r.AttenteFile? then x.(fid := -1) else x;
      var s1 := QueueDel(s, p);
      s' == QueueAdd(s1.(procs := s1.procs[p := y.(etat := ACTIVABLE, operationStatus := status)]), ProcActivables, p)
    ensures var p := Chaine(s, r)[0];
      && p != s.elu && Activee(s, p, Marque(s.procs[p], status), s') && Chaine(s', r) == Chaine(s, r)[1..]
      && Coherent(s') && Chainages(s') && NULL !in s'.procs && s'.procs[s'.elu].etat == ELU && s'.elu == s.elu
      && ReveillerListe(s, Chaine(s, r), status) == ReveillerListe(s', Chaine(s, r)[1..], status)
  {
    hide Reveil, Tri, Famille, Files, Sems, Trie, ReveillerListe, QueueAdd, QueueDel, Without;
    var p := Chaine(s, r)[0];
    TeteBloquee(s, r);
    ReveillerPremier(s, r, status);
    assert (s.procs[p].etat == ATTEND_FILE) == r.AttenteFile? by { assert Accord(s.procs[p]); }
    MarqueReveille(s, r, p, status, s');
    ReveilCoherent(s, p, Marque(s.procs[p], status));
    WithoutHead(Chaine(s, r));
  }

  lemma ReveillerPremier(s: Noyau, r: Anneau, status: int)
    requires Chaine(s, r) != [] && Chaine(s, r)[0] in s.procs
    ensures var q := Chaine(s, r);
      ReveillerListe(s, q, status) == ReveillerListe(Reveil(s, q[0], Marque(s.procs[q[0]], status)), q[1..], status)
  {
  }

  lemma MarqueReveille(s: Noyau, r: Anneau, p: int, status: int, s': Noyau)
    requires p in s.procs && (s.procs[p].etat == ATTEND_FILE) == r.AttenteFile?
    requires var x := s.procs[p].(chainage := Libre);
      var y := if r.AttenteFile? then x.(fid := -1) else x;
      var s1 := QueueDel(s, p);
      s' == QueueAdd(s1.(procs := s1.procs[p := y.(etat := ACTIVABLE, operationStatus := status)]), ProcActivables, p)
    ensures s' == Reveil(s, p, Marque(s.procs[p], status))
  {
    hide QueueAdd, QueueDel;
    var rec := Marque(s.procs[p], status);
    ReveilDef2(QueueDel(s, p), p, rec, Maj(QueueDel(s, p), p, rec.(etat := ACTIVABLE, chainage := Libre)));
  }

  lemma ReveilDef2(s: Noyau, p: int, rec: Processus, s1: Noyau)
    ensures s1 == Maj(s, p, rec.(etat := ACTIVABLE, chainage := Libre)) ==>
      s1 == Maj(s, p, rec.(etat := ACTIVABLE).(chainage := Libre))
  {
  }

  lemma DepasseUnAvant(s: Noyau, q: seq<int>, n: nat, prio: int)
    requires n < |q| && q[n] in s.procs && s.procs[q[n]].prio == prio
    ensures forall seuil {:trigger Depasse(s, q[..n+1], seuil)} ::
      Depasse(s, q[..n+1], seuil) <==> Depasse(s, q[..n], seuil) || prio > seuil
  {
    var a, b := q[..n+1], q[..n];
    forall seuil ensures Depasse(s, a, seuil) <==> Depasse(s, b, seuil) || prio > seuil {
      if Depasse(s, b, seuil) {
        var i :| 0 <= i < |b| && b[i] in s.procs && s.procs[b[i]].prio > seuil;
        assert a[i] == b[i];
      }
      if Depasse(s, a, seuil) {
        var i :| 0 <= i < |a| && a[i] in s.procs && s.procs[a[i]].prio > seuil;
        assert i == n || b[i] == a[i];
      }
      assert a[n] == q[n];
    }
  }

  // ----- What psend, preceive, preset and pdelete rely on ------------------------------------------------

  lemma FinirNon(s: Noyau)
    ensures Finir(s, false) == s
  {
  }

  /** The state once the caller has noted its message. */
  lemma ApresNote(s: Noyau, fid: int, m: int)
    requires Inv(s) && fid in s.files
    ensures var s0, f, q := Maj(s, s.elu, Elu(s).(fileValue := m, operationStatus := 1)), s.files[fid], Chaine(s, AttenteFile(fid));
      && Coherent(s0) && DefuntsSansPere(s0) && Chainages(s0) && NULL !in s0.procs && s0.procs[s0.elu].etat == ELU
      && Chaine(s0, AttenteFile(fid)) == q
      && (q != [] ==> q[0] in s.procs && q[0] != s.elu && s.procs[q[0]].etat == ATTEND_FILE)
      && (|f.queueMsg| != f.maxMsg && (f.queueMsg != [] || q == []) ==>
            |f.queueMsg| < f.maxMsg && Coherent(MajFile(s0, fid, f.queueMsg + [m])))
      && (f.queueMsg != [] && q == [] ==> Coherent(MajFile(s0, fid, f.queueMsg[1..])))
      && (f.queueMsg != [] && q != [] ==> |f.queueMsg| == f.maxMsg)
  {
    var rec := Elu(s).(fileValue := m, operationStatus := 1);
    var s0, f, q := Maj(s, s.elu, rec), s.files[fid], Chaine(s, AttenteFile(fid));
    MajEluInv(s, rec);
    if q != [] { TeteEnAttente(s, fid); }
    hide Tri, Table, Famille;
    if |f.queueMsg| != f.maxMsg && (f.queueMsg != [] || q == []) { MajFileInv(s0, fid, f.queueMsg + [m]); }
    if f.queueMsg != [] && q == [] { MajFileInv(s0, fid, f.queueMsg[1..]); }
  }

  /** The head of the waiting list, taken out and made ready. */
  lemma ReveilPret(s: Noyau, fid: int, rec: Processus)
    requires Coherent(s) && DefuntsSansPere(s) && s.procs[s.elu].etat == ELU && Chaine(s, AttenteFile(fid)) != []
    requires var p := Chaine(s, AttenteFile(fid))[0];
      p in s.procs && p != s.elu && s.procs[p].etat == ATTEND_FILE && rec == s.procs[p].(fid := rec.fid, fileValue := rec.fileValue, operationStatus := rec.operationStatus)
    ensures var p := Chaine(s, AttenteFile(fid))[0];
      var s1 := QueueDel(s, p);
      && p in s1.procs && s1.procs[p] == s.procs[p].(chainage := Libre)
      && Reveil(s, p, rec) == QueueAdd(s1.(procs := s1.procs[p := rec.(etat := ACTIVABLE, chainage := Libre)]), ProcActivables, p)
      && Coherent(Reveil(s, p, rec)) && DefuntsSansPere(Reveil(s, p, rec)) && Reveil(s, p, rec).elu == s.elu
      && Reveil(s, p, rec).procs[s.elu].etat == ELU && Reveil(s, p, rec).files == s.files
  {
    var p := Chaine(s, AttenteFile(fid))[0];
    assert AttenteFondee(s.procs[p]);
    ReveilCoherent(s, p, rec);
  }

  lemma EmetteurPret(s: Noyau, fid: int, rec: Processus)
    requires Inv(s) && fid in s.files && s.files[fid].queueMsg != [] && Chaine(s, AttenteFile(fid)) != []
    requires Chaine(s, AttenteFile(fid))[0] in s.procs && rec == s.procs[Chaine(s, AttenteFile(fid))[0]].(fid := -1, operationStatus := 1)
    ensures var x, f := Chaine(s, AttenteFile(fid))[0], s.files[fid];
      var s1 := MajFile(Maj(s, s.elu, Elu(s).(fileValue := -1, operationStatus := 1)), fid, f.queueMsg[1..] + [s.procs[x].fileValue]);
      var s2 := QueueDel(s1, x);
      && x != s.elu && x in s2.procs && s2.procs[x] == s.procs[x].(chainage := Libre)
      && Reveil(s1, x, rec) == QueueAdd(s2.(procs := s2.procs[x := rec.(etat := ACTIVABLE, chainage := Libre)]), ProcActivables, x)
      && Coherent(Reveil(s1, x, rec)) && DefuntsSansPere(Reveil(s1, x, rec)) && Reveil(s1, x, rec).elu == s.elu
      && Reveil(s1, x, rec).procs[s.elu].etat == ELU
      && |f.queueMsg[1..]| < f.maxMsg
  {
    hide Reveil, QueueAdd, QueueDel, Tri, Table;
    TeteEnAttente(s, fid);
    var x, f := Chaine(s, AttenteFile(fid))[0], s.files[fid];
    var s0 := Maj(s, s.elu, Elu(s).(fileValue := -1, operationStatus := 1));
    var msgs := f.queueMsg[1..] + [s.procs[x].fileValue];
    MajEluInv(s, Elu(s).(fileValue := -1, operationStatus := 1));
    MajFileInv(s0, fid, msgs);
    ReveilPret(MajFile(s0, fid, msgs), fid, rec);
  }

  lemma SansFiles(s: Noyau, s': Noyau)
    requires Chainages(s) && s' == s.(files := s'.files)
    ensures Chainages(s') && forall r :: Chaine(s', r) == Chaine(s, r)
  {
    assert forall r :: Chaine(s', r) == Chaine(s, r);
  }

  /** queue_del does not look at the messages. */
  lemma QueueDelReste(s: Noyau, s': Noyau, p: int)
    requires p in s.procs && s' == s.(files := s'.files)
    ensures QueueDel(s', p) == QueueDel(s, p).(files := s'.files)
  {
  }

  lemma AttentePrete(s: Noyau, fid: int, valeur: int, suite: Suite)
    requires Inv(s) && s.elu != IDLE && fid in s.files
    requires if suite == DansPsend then |s.files[fid].queueMsg| == s.files[fid].maxMsg else suite == DansPreceive && s.files[fid].queueMsg == []
    ensures var rec := Elu(s).(etat := ATTEND_FILE, fid := fid, fileValue := valeur, operationStatus := 1, suite := suite);
      && Attente(s, fid, valeur, suite) == QueueAdd(Maj(s, s.elu, rec), AttenteFile(fid), s.elu)
      && Coherent(Attente(s, fid, valeur, suite)) && DefuntsSansPere(Attente(s, fid, valeur, suite))
      && !Condamne(Attente(s, fid, valeur, suite), Attente(s, fid, valeur, suite).elu)
  {
    Suspension(s, Elu(s).(etat := ATTEND_FILE, fid := fid, fileValue := valeur, operationStatus := 1, suite := suite), AttenteFile(fid));
  }

  /** Emptying the waiting list of a semaphore leaves the semaphores alone. */
  lemma SemVidee(s: Noyau, sid: int, status: int)
    requires Inv(s)
    ensures ReveillerListe(s, Chaine(s, AttenteSem(sid)), status).sems == s.sems
    ensures ReveillerListe(s, Chaine(s, AttenteSem(sid)), status).sidsLibres == s.sidsLibres
  {
    hide ReveillerListe;
    ReveillerListeEffet(s, AttenteSem(sid), status);
  }

  lemma SignalPret(s: Noyau, sid: int)
    requires Inv(s) && sid in s.sems && s.sems[sid] < 0 && !Fatal(s, SysSignal(sid))
    ensures var s1 := MajSem(s, sid, s.sems[sid] + 1); var q := Chaine(s, AttenteSem(sid));
      && q != [] && Chaine(s1, AttenteSem(sid)) == q && Chainages(s1) && q[0] in s.procs
      && var s2 := QueueDel(s1, q[0]);
         && q[0] in s2.procs
         && Reveil(s1, q[0], s.procs[q[0]].(operationStatus := 1)) == QueueAdd(
              s2.(procs := s2.procs[q[0] := s.procs[q[0]].(operationStatus := 1, etat := ACTIVABLE, chainage := Libre)]), ProcActivables, q[0])
  {
    hide QueueAdd, Tri, Famille, Table, Files;
    TeteBloquee(s, AttenteSem(sid));
    MajSemCoherent(s, sid, s.sems[sid] + 1);
  }

  lemma SignauxPanne(s: Noyau, sid: int, n: int)
    requires n > 0
    ensures KernelSem.Signal(s, sid).Panique? ==> Signaux(s, sid, n).Panique?
  {
    hide KernelSem.Signal;
  }

  lemma SignauxAvance(s: Noyau, sid: int, n: int)
    requires Inv(s) && sid in s.sems && n > 0 && s.sems[sid] + n <= SHORTINT_MAX && !Signaux(s, sid, n).Panique?
    ensures !Fatal(s, SysSignal(sid)) && KernelSem.Signal(s, sid).Rend?
    ensures var s1 := KernelSem.Signal(s, sid).s;
      Inv(s1) && sid in s1.sems && s1.sems[sid] == s.sems[sid] + 1 && Signaux(s1, sid, n - 1) == Signaux(s, sid, n)
  {
    hide KernelSem.Signal;
    SignalPanique(s, sid);
    SignauxPanne(s, sid, n);
    SignalPas(s, sid);
    SignalInv(s, sid);
    SignauxDeplie(s, sid, n);
  }

  lemma WaitPret(s: Noyau, sid: int)
    requires Inv(s) && s.elu != IDLE && sid in s.sems && SHORTINT_MIN < s.sems[sid] <= 0
    ensures var s1, rec := MajSem(s, sid, s.sems[sid] - 1), Elu(s).(etat := ATTEND_SEMAPHORE, suite := DansWait);
      var s2 := Deplacer(s1, s.elu, rec, AttenteSem(sid));
      && s2 == QueueAdd(Maj(s1, s.elu, rec), AttenteSem(sid), s.elu)
      && Coherent(s2) && DefuntsSansPere(s2) && !Condamne(s2, s2.elu)
  {
    hide Deplacer, QueueAdd;
    MajSemCoherent(s, sid, s.sems[sid] - 1);
    Suspension(MajSem(s, sid, s.sems[sid] - 1), Elu(s).(etat := ATTEND_SEMAPHORE, suite := DansWait), AttenteSem(sid));
  }

  lemma PretAChanger(s: Noyau)
    requires Inv(s)
    ensures Coherent(s) && DefuntsSansPere(s) && !Condamne(s, s.elu)
  {
    EluSauf(s);
  }

  lemma ApresVidage(s: Noyau, fid: int)
    requires Inv(s) && fid in s.files
    ensures var s1 := ReveillerListe(s, Chaine(s, AttenteFile(fid)), 0);
      && s1.files == s.files && s1.elu == s.elu && s1.elu in s1.procs && s1.procs[s1.elu].etat == ELU
      && Coherent(MajFile(s1, fid, [])) && DefuntsSansPere(MajFile(s1, fid, []))
      && Coherent(Retiree(s1, fid)) && DefuntsSansPere(Retiree(s1, fid))
  {
    hide ReveillerListe;
    ReveillerListeEffet(s, AttenteFile(fid), 0);
    var s1 := ReveillerListe(s, Chaine(s, AttenteFile(fid)), 0);
    MajFileInv(s1, fid, []);
    RetireeCoherent(s1, fid);
  }

  /** The running process before its last switch: what its death amounts to, written out. */
  lemma Partir(s: Noyau, e: Processus, reveille: bool)
    requires Inv(s) && s.elu != IDLE && e.prio == Elu(s).prio && e.pere == Elu(s).pere && e.fils == Elu(s).fils && AttenteFondee(e)
    requires e.chainage == Libre
    ensures var s1 := s.(procs := s.procs[s.elu := e.(etat := if e.pere != NULL then ZOMBIE else MOURANT)]);
      && Mourir(s, e, reveille) == (if reveille && e.pere != NULL then ReveilPere(s1, e.pere) else s1)
      && (e.pere != NULL ==> e.pere in s1.procs && (s1.procs[e.pere].etat == ATTEND_FILS ==> s1.procs[e.pere].chainage == Libre))
    ensures Coherent(Mourir(s, e, reveille)) && DefuntsSansPere(Mourir(s, e, reveille)) && Mourir(s, e, reveille).elu == s.elu
    ensures Condamne(Mourir(s, e, reveille), s.elu) <==> e.pere != NULL && Condamne(s, e.pere)
  {
    hide ReveilPere;
    MourirInv(s, e, reveille);
    MourirCondamne(s, e, reveille);
    if e.pere != NULL { PereEnAttente(s); }
  }

  lemma PereEnAttente(s: Noyau)
    requires Inv(s) && Elu(s).pere != NULL
    ensures Elu(s).pere in s.procs && (s.procs[Elu(s).pere].etat == ATTEND_FILS ==> s.procs[Elu(s).pere].chainage == Libre)
  {
  }

  lemma QuitteVivant(s: Noyau)
    requires Coherent(s) && DefuntsSansPere(s) && !Condamne(s, s.elu)
    ensures Quitter(s) == Suspend(KernelSched.Ordonnanceur(s))
  {
    hide KernelReap.FreeMourantQueue, KernelSched.Ordonnanceur;
    QuitterInv(s);
  }

  lemma ExitQuitte(s: Noyau, retval: int)
    requires Inv(s) && s.elu != IDLE && !Fatal(s, SysExit(retval))
    ensures KernelDeath.Exit(s, retval) == Suspend(KernelSched.Ordonnanceur(Mourir(s, Elu(s).(retval := retval), true)))
  {
    hide Quitter, Detacher, ReveilPere;
    var e := Elu(s).(retval := retval);
    assert KernelDeath.Exit(s, retval) == Quitter(Mourir(s, e, true));
    MourirInv(s, e, true);
    MourirCondamne(s, e, true);
    QuitteVivant(Mourir(s, e, true));
  }

  lemma KillQuitte(s: Noyau)
    requires Inv(s) && 0 < s.elu < MAX_PROCESS && !Fatal(s, SysKill(s.elu))
    ensures KernelDeath.Kill(s, s.elu) == Suspend(KernelSched.Ordonnanceur(Mourir(s, Elu(s), false)))
  {
    hide Quitter, Mourir;
    KillSoi(s);
    MourirInv(s, Elu(s), false);
    MourirCondamne(s, Elu(s), false);
    QuitteVivant(Mourir(s, Elu(s), false));
  }

  /** A victim of kill is linked; once it is dead, reaping may begin. */
  lemma Victime(s: Noyau, pid: int)
    requires Inv(s) && 0 < pid < MAX_PROCESS && pid in s.procs && pid != s.elu && Vif(s.procs[pid]) && s.procs[pid].etat != ATTEND_FILS
    ensures s.procs[pid].chainage.Dans? && pid in Chaine(s, s.procs[pid].chainage.anneau)
    ensures s.procs[pid].pere != NULL ==>
      var s1 := Detacher(s, pid, s.procs[pid].(etat := ZOMBIE));
      var pere := s.procs[pid].pere;
      && pere in s1.procs && (s1.procs[pere].etat == ATTEND_FILS ==> s1.procs[pere].chainage == Libre)
      && Moissonnable(ReveilPere(s1, pere))
    ensures s.procs[pid].pere == NULL ==> Moissonnable(Deplacer(s, pid, s.procs[pid].(etat := MOURANT), ProcMourants))
  {
    hide Detacher, Deplacer, ReveilPere, Moissonnable, Tri, Files, Sems, Trie;
    if s.procs[pid].pere != NULL {
      VictimeFils(s, pid);
    } else {
      MourirCoherent(s, pid, s.procs[pid].(etat := MOURANT));
      CoherentMoissonnable(Deplacer(s, pid, s.procs[pid].(etat := MOURANT), ProcMourants));
    }
  }

  lemma VictimeFils(s: Noyau, pid: int)
    requires Inv(s) && 0 < pid < MAX_PROCESS && pid in s.procs && pid != s.elu && Vif(s.procs[pid]) && s.procs[pid].pere != NULL
    ensures var s1 := Detacher(s, pid, s.procs[pid].(etat := ZOMBIE));
      var pere := s.procs[pid].pere;
      && pere in s1.procs && (s1.procs[pere].etat == ATTEND_FILS ==> s1.procs[pere].chainage == Libre)
      && Moissonnable(ReveilPere(s1, pere))
  {
    hide Detacher, ReveilPere, Moissonnable, Tri, Files, Sems, Trie;
    var p := s.procs[pid];
    ZombieCoherent(s, pid, p.(etat := ZOMBIE));
    var s1 := Detacher(s, pid, p.(etat := ZOMBIE));
    ReveilPereCoherent(s1, p.pere);
    CoherentMoissonnable(ReveilPere(s1, p.pere));
  }

  lemma FilsBornes(s: Noyau)
    requires Inv(s)
    ensures forall c :: c in Elu(s).fils ==> c < MAX_PROCESS
  {
  }

  lemma FilsDuPere(s: Noyau, pid: int)
    requires Inv(s) && pid >= 0
    ensures pid in Elu(s).fils <==> pid in s.procs && s.procs[pid].pere == s.elu
  {
    if pid in s.procs && s.procs[pid].pere == s.elu { assert s.procs[pid].etat != MOURANT; }
  }

  lemma FilsConnus(s: Noyau)
    requires Inv(s)
    ensures forall c :: c in Elu(s).fils ==> c in s.procs && c != NULL
  {
  }

  lemma Endormir(s: Noyau, pid: int)
    requires Inv(s) && s.elu != IDLE && (pid >= 0 ==> pid in Elu(s).fils)
    ensures var s1 := s.(procs := s.procs[s.elu := Elu(s).(etat := ATTEND_FILS, suite := DansWaitpid(pid))]);
      && s1 == Detacher(s, s.elu, Elu(s).(etat := ATTEND_FILS, suite := DansWaitpid(pid)))
      && Coherent(s1) && DefuntsSansPere(s1) && !Condamne(s1, s1.elu)
  {
    var rec := Elu(s).(etat := ATTEND_FILS, suite := DansWaitpid(pid));
    assert rec.(chainage := Libre) == rec;
    DetacherCoherent(s, s.elu, rec);
    EluSauf(Detacher(s, s.elu, rec));
  }

  lemma Recueillir(s: Noyau, c: int)
    requires Inv(s) && c in Elu(s).fils && c in s.procs && s.procs[c].etat == ZOMBIE
    ensures c != s.elu && s.procs[c].chainage == Libre && Moissonnable(Recueilli(s, c))
    ensures Without(Elu(s).fils, c) == Cut(Elu(s).fils, SlotOf(Elu(s).fils, c))
    ensures var s1 := s.(procs := s.procs[s.elu := Elu(s).(fils := Without(Elu(s).fils, c), suite := Utilisateur)]);
      && c in s1.procs
      && Recueilli(s, c) == QueueAdd(s1.(procs := s1.procs[c := s.procs[c].(etat := MOURANT, pere := NULL)]), ProcMourants, c)
  {
    assert s.procs[c].chainage == Libre;
    RecueilliCoherent(s, c);
    CoherentMoissonnable(Recueilli(s, c));
  }

  /** The sleepers `q` of state `s0` have been woken from the far end down to slot `n`. */
  ghost predicate Veille(s0: Noyau, q: seq<int>, n: nat, ticks: int, s: Noyau) {
    var m := Restants(s0.procs, q, ticks);
    && Coherent(s) && DefuntsSansPere(s) && s.elu in s.procs && s.procs[s.elu].etat == ELU && s.elu == s0.elu
    && s0.elu in s0.procs && s.procs[s.elu].prio == s0.procs[s.elu].prio
    && q == Chaine(s0, ProcEndormis) && NoDup(q) && m <= n <= |q| && Chaine(s, ProcEndormis) == q[..n]
    && Restants(s0.procs, q[..n], ticks) == m && Eveiller(s, q[..n], m) == Eveiller(s0, q, m)
    && forall x :: x in q[..n] ==> x in s0.procs && x in s.procs && s.procs[x] == s0.procs[x]
  }

  lemma DebutVeille(s: Noyau, ticks: int)
    requires Inv(s)
    ensures var q := Chaine(s, ProcEndormis); Veille(s, q, |q|, ticks, s)
    ensures !Depasse(s, Chaine(s, ProcEndormis)[|Chaine(s, ProcEndormis)|..], s.procs[s.elu].prio)
  {
    var q := Chaine(s, ProcEndormis);
    assert q[..|q|] == q;
  }

  lemma Reveillable(s0: Noyau, q: seq<int>, n: nat, ticks: int, s: Noyau)
    requires Veille(s0, q, n, ticks, s) && Chaine(s, ProcEndormis) != []
    ensures var f := Chaine(s, ProcEndormis); var p := f[|f|-1];
      && n > 0 && p == q[n-1] && p in s.procs && p in s0.procs && s.procs[p] == s0.procs[p] && Chainages(s)
      && s.procs[p].chainage == Dans(ProcEndormis)
      && (if s.procs[p].secReveille > ticks then Restants(s0.procs, q, ticks) == n else Restants(s0.procs, q, ticks) < n)
  {
    hide Table, Etats, Famille, Files, Sems, Tri, DefuntsSansPere, Eveiller;
    var f := Chaine(s, ProcEndormis);
    assert f == q[..n] && f[|f|-1] == q[n-1];
    assert f[|f|-1] in f;
    assert f[..|f|-1] == q[..n-1];
  }

  lemma UnDeMoins(s0: Noyau, q: seq<int>, n: nat, ticks: int, s: Noyau, s': Noyau)
    requires Veille(s0, q, n, ticks, s) && Chaine(s, ProcEndormis) != [] && n > 0
    requires var p := q[n-1];
      && p in s.procs && s.procs[p].secReveille <= ticks
      && var s1 := Maj(QueueDel(s, p), p, s.procs[p].(etat := ACTIVABLE).(chainage := Libre));
         p in s1.procs && s' == QueueAdd(s1, ProcActivables, p)
    ensures Veille(s0, q, n - 1, ticks, s') && q[n-1] in s'.procs && s'.procs[q[n-1]].prio == s.procs[q[n-1]].prio
    ensures forall seuil {:trigger Depasse(s0, q[n-1..], seuil)} ::
      Depasse(s0, q[n-1..], seuil) <==> Depasse(s0, q[n..], seuil) || s.procs[q[n-1]].prio > seuil
  {
    hide QueueAdd, QueueDel, Maj, Reveil, Veille, Eveiller, Restants, NoDup, Depasse, Activee, Coherent;
    VeilleNoDup(s0, q, n, ticks, s);
    var p := q[n-1];
    ReveilDef(s, p, s');
    UnReveil(s0, q, n, ticks, s);
    CoupeFin(q, n);
    UnDeMoinsVeille(s0, q, n, ticks, s, s');
    DepasseUnDePlus(s0, q, n, s.procs[p].prio);
  }

  lemma UnReveil(s0: Noyau, q: seq<int>, n: nat, ticks: int, s: Noyau)
    requires Veille(s0, q, n, ticks, s) && Chaine(s, ProcEndormis) != [] && n > 0 && q[n-1] in s.procs
    ensures var p := q[n-1]; var s' := Reveil(s, p, s.procs[p]);
      && p in s0.procs && s.procs[p] == s0.procs[p] && p != s.elu
      && Coherent(s') && DefuntsSansPere(s') && Activee(s, p, s.procs[p], s')
      && Eveiller(s, q[..n], Restants(s0.procs, q, ticks)) ==
           if Restants(s0.procs, q, ticks) < n then Eveiller(s', q[..n][..n-1], Restants(s0.procs, q, ticks)) else s
  {
    hide Reveil, Restants, Coherent, Activee;
    var p, f := q[n-1], Chaine(s, ProcEndormis);
    assert f[|f|-1] == p && p in f;
    assert q[..n][n-1] == p;
    Dormeur(s, p);
    ReveilCoherent(s, p, s.procs[p]);
  }

  lemma Dormeur(s: Noyau, p: int)
    requires Coherent(s) && p in Chaine(s, ProcEndormis) && s.procs[s.elu].etat == ELU
    ensures p in s.procs && p != s.elu && EnAttente(s.procs[p].etat) && AttenteFondee(s.procs[p])
  {
  }

  lemma ReveilDef(s: Noyau, p: int, s': Noyau)
    requires p in s.procs
    requires var s1 := Maj(QueueDel(s, p), p, s.procs[p].(etat := ACTIVABLE).(chainage := Libre));
      p in s1.procs && s' == QueueAdd(s1, ProcActivables, p)
    ensures s' == Reveil(s, p, s.procs[p])
  {
  }

  lemma VeilleNoDup(s0: Noyau, q: seq<int>, n: nat, ticks: int, s: Noyau)
    requires Veille(s0, q, n, ticks, s)
    ensures NoDup(q) && n <= |q| && Eveiller(s, q[..n], Restants(s0.procs, q, ticks)) == Eveiller(s0, q, Restants(s0.procs, q, ticks))
  {
  }

  /** A sleeper that is due does not count among those that remain. */
  lemma RestantsCourt(procs: map<int, Processus>, q: seq<int>, n: nat, ticks: int)
    requires 0 < n <= |q| && q[n-1] in procs && procs[q[n-1]].secReveille <= ticks
    ensures Restants(procs, q[..n], ticks) == Restants(procs, q[..n-1], ticks)
  {
    assert q[..n][..n-1] == q[..n-1];
  }

  lemma UnDeMoinsVeille(s0: Noyau, q: seq<int>, n: nat, ticks: int, s: Noyau, s': Noyau)
    requires Veille(s0, q, n, ticks, s) && n > 0
    requires var p := q[n-1];
      && p in s.procs && p in s0.procs && s.procs[p] == s0.procs[p] && s.procs[p].secReveille <= ticks
      && p != s.elu && Activee(s, p, s.procs[p], s')
    requires Coherent(s') && DefuntsSansPere(s')
    requires Restants(s0.procs, q, ticks) < n ==>
      Eveiller(s, q[..n], Restants(s0.procs, q, ticks)) == Eveiller(s', q[..n][..n-1], Restants(s0.procs, q, ticks))
    requires Without(q[..n], q[n-1]) == q[..n-1] && q[n-1] !in q[..n-1] && q[..n][..n-1] == q[..n-1]
    requires forall x :: x in q[..n-1] ==> x in q[..n]
    ensures Veille(s0, q, n - 1, ticks, s') && q[n-1] in s'.procs && s'.procs[q[n-1]].prio == s.procs[q[n-1]].prio
  {
    hide Coherent, Without, NoDup, Eveiller, DefuntsSansPere, Restants;
    RestantsCourt(s0.procs, q, n, ticks);
  }

  lemma CoupeFin(q: seq<int>, n: nat)
    requires NoDup(q) && 0 < n <= |q|
    ensures Without(q[..n], q[n-1]) == q[..n-1] && q[n-1] !in q[..n-1] && q[..n][..n-1] == q[..n-1]
    ensures forall x :: x in q[..n-1] ==> x in q[..n]
  {
    forall i, j | 0 <= i && Lt(i, j) && j < n ensures q[..n][i] != q[..n][j] {}
    assert q[..n][..n-1] == q[..n-1];
    WithoutLast(q[..n]);
  }

  lemma DepasseUnDePlus(s: Noyau, q: seq<int>, n: nat, prio: int)
    requires 0 < n <= |q| && q[n-1] in s.procs && s.procs[q[n-1]].prio == prio
    ensures forall seuil {:trigger Depasse(s, q[n-1..], seuil)} ::
      Depasse(s, q[n-1..], seuil) <==> Depasse(s, q[n..], seuil) || prio > seuil
  {
    var a, b := q[n-1..], q[n..];
    forall seuil ensures Depasse(s, a, seuil) <==> Depasse(s, b, seuil) || prio > seuil {
      if Depasse(s, b, seuil) {
        var i :| 0 <= i < |b| && b[i] in s.procs && s.procs[b[i]].prio > seuil;
        assert a[i+1] == b[i];
      }
      if Depasse(s, a, seuil) {
        var i :| 0 <= i < |a| && a[i] in s.procs && s.procs[a[i]].prio > seuil;
        assert i == 0 || b[i-1] == a[i];
      }
      assert a[0] == q[n-1];
    }
  }

  lemma FinVeille(s0: Noyau, q: seq<int>, n: nat, ticks: int, s: Noyau)
    requires Veille(s0, q, n, ticks, s)
    requires Chaine(s, ProcEndormis) == [] || CleDe(s.procs, SecReveille, Chaine(s, ProcEndormis)[|Chaine(s, ProcEndormis)|-1]) > ticks
    ensures n == Restants(s0.procs, q, ticks) && s == Eveiller(s0, q, n)
    ensures Coherent(s) && DefuntsSansPere(s) && s.elu in s.procs && s.procs[s.elu].etat == ELU
  {
    if Chaine(s, ProcEndormis) != [] { Reveillable(s0, q, n, ticks, s); }
  }

  lemma EluConnu(s: Noyau)
    requires Inv(s)
    ensures s.elu in s.procs && s.procs[s.elu].etat == ELU && s.procs[s.elu].chainage == Libre
    ensures Chainages(s) && NULL !in s.procs && AttenteFondee(s.procs[s.elu])
  {
  }

  lemma MajDef(s: Noyau, p: int, rec: Processus)
    ensures Maj(s, p, rec) == s.(procs := s.procs[p := rec])
  {
  }

  lemma OterMaj(s: Noyau, p: int, rec: Processus, r: Anneau)
    requires Chainages(s) && p in s.procs && s.procs[p].chainage == Dans(r) && rec.chainage == Dans(r)
    ensures p in Maj(s, p, rec).procs && Maj(s, p, rec).procs[p] == rec && p in Chaine(Maj(s, p, rec), r)
    ensures QueueDel(Maj(s, p, rec), p) == Maj(QueueDel(s, p), p, rec.(chainage := Libre))
    ensures p in QueueDel(Maj(s, p, rec), p).procs && QueueDel(Maj(s, p, rec), p).procs[p].chainage == Libre
  {
    assert p in Chaine(s, r);
    assert Chaine(Maj(s, p, rec), r) == Chaine(s, r);
  }

  lemma FileDuBloque(s: Noyau, p: int)
    requires Inv(s) && p in s.procs && s.procs[p].etat == ATTEND_FILE
    ensures s.procs[p].fid in s.files
  {
    assert AttenteSaine(s, s.procs[p].fid);
  }

  lemma EnAttenteEs(s: Noyau)
    requires Inv(s) && Chaine(s, ProcBloqueEs) != []
    ensures var p := Chaine(s, ProcBloqueEs)[0];
      && p in s.procs && p != s.elu && EnAttente(s.procs[p].etat)
      && AttenteFondee(s.procs[p])
  {
    assert Chaine(s, ProcBloqueEs)[0] in Chaine(s, ProcBloqueEs);
  }

  /** The running process, unlinked, suspended in the queue `r`. */
  lemma Suspension(s: Noyau, rec: Processus, r: Anneau)
    requires Inv(s) && s.elu != IDLE
    requires rec.prio == Elu(s).prio && rec.pere == Elu(s).pere && rec.fils == Elu(s).fils && AttenteFondee(rec)
    requires EnAttente(rec.etat) && Accord(rec.(chainage := Dans(r))) && Admis(s, rec, r) && rec.chainage == Libre
    ensures var s1 := Deplacer(s, s.elu, rec, r);
      && s1 == QueueAdd(Maj(s, s.elu, rec), r, s.elu)
      && Coherent(s1) && DefuntsSansPere(s1) && !Condamne(s1, s1.elu)
  {
    hide Tri, Files, Sems, Trie;
    var s1 := Deplacer(s, s.elu, rec, r);
    DeplacerCoherent(s, s.elu, rec, r);
    DeplacerEffet(s, s.elu, rec, r);
    EluSauf(s1);
  }

  lemma Moisson(s: Noyau)
    requires Moissonnable(s)
    ensures Chainages(s) && NULL !in s.procs
  {
  }

  /** One turn of the reaping loop, and what the next one starts from. */
  lemma TourSuivant(s0: Noyau, p: int, s: Noyau) returns (s1: Noyau)
    requires Moissonnable(s0) && Chaine(s0, ProcMourants) != [] && p == Chaine(s0, ProcMourants)[0] && p in s0.procs
    requires var s2 := KernelReap.FreeChilds(QueueDel(s0, p), s0.procs[p].fils);
      s == s2.(procs := s2.procs - {p}, libres := [p] + s2.libres)
    ensures s1 == s && Moissonnable(s1) && Chainages(s1) && NULL !in s1.procs && |s1.procs| < |s0.procs|
    ensures KernelReap.FreeMourantQueue(s1) == KernelReap.FreeMourantQueue(s0)
  {
    s1 := FreeOne(s0);
    assert p in Chaine(s0, ProcMourants);
    FreeOneEffet(s0);
    FreeOneMoissonnable(s0, p, s1);
    TailleTable(s0.procs, s1.procs);
  }

  lemma CommutationPrete(s0: Noyau)
    requires Coherent(s0) && DefuntsSansPere(s0) && !Condamne(s0, s0.elu)
    ensures Moissonnable(s0)
    ensures var s := KernelReap.FreeMourantQueue(s0); Chaine(s, ProcActivables) != [] ==>
      && s.elu in s.procs && s.procs[s.elu].etat != ACTIVABLE
      && (s.procs[s.elu].etat == ELU || s.procs[s.elu].etat == MOURANT ==> s.procs[s.elu].chainage == Libre)
      && Chainages(Remettre(s)) && NULL !in Remettre(s).procs && Chaine(Remettre(s), ProcActivables) != []
  {
    hide KernelReap.FreeMourantQueue, Moissonnable, Remettre, Tri, Famille, Files, Sems, Trie;
    CoherentMoissonnable(s0);
    MoissonCoherent(s0);
    var s := KernelReap.FreeMourantQueue(s0);
    MoissonHorsMourants(s);
    if Chaine(s, ProcActivables) != [] {
      RemettreEffet(s);
      RemisEtats(s, Remettre(s));
    }
  }

  lemma RemettreAjout(s: Noyau, s': Noyau)
    requires s.elu in s.procs && s.procs[s.elu].etat != ACTIVABLE
    requires s.procs[s.elu].etat == ELU || s.procs[s.elu].etat == MOURANT ==> s.procs[s.elu].chainage == Libre
    requires s' == if s.procs[s.elu].etat == MOURANT then QueueAdd(s, ProcMourants, s.elu)
      else if s.procs[s.elu].etat == ELU then QueueAdd(Maj(s, s.elu, s.procs[s.elu].(etat := ACTIVABLE)), ProcActivables, s.elu)
      else s
    ensures s' == Remettre(s)
  {
    hide QueueAdd;
    var e := s.procs[s.elu];
    if e.etat == MOURANT {
      assert Maj(s, s.elu, e) == s;
      assert e.(chainage := Libre) == e;
    } else if e.etat == ELU {
      assert e.(etat := ACTIVABLE).(chainage := Libre) == e.(etat := ACTIVABLE);
    }
  }

  lemma ElireSortie(s: Noyau, n: int, s': Noyau)
    requires Chaine(s, ProcActivables) != [] && n == Chaine(s, ProcActivables)[0] && n in s.procs
    requires var s1 := QueueDel(s, n); n in s1.procs && s' == Maj(s1, n, s.procs[n].(etat := ELU, chainage := Libre)).(elu := n)
    ensures s' == Elire(s)
  {
  }

  lemma FreeOnePret(s: Noyau, p: int)
    requires Moissonnable(s) && Chaine(s, ProcMourants) != [] && p == Chaine(s, ProcMourants)[0]
    ensures p in s.procs && p in Chaine(s, ProcMourants)
    ensures var s0 := QueueDel(s, p);
      && Chainages(s0) && NoDup(s.procs[p].fils) && p in s0.procs && s0.procs[p].fils == s.procs[p].fils
      && forall c :: c in s.procs[p].fils ==> c in s0.procs && (s0.procs[c].etat == ZOMBIE ==> s0.procs[c].chainage == Libre)
  {
    assert p in Chaine(s, ProcMourants);
    RetirerMourant(s, p);
    FilsDe(s, p);
  }
}
