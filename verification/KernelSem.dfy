/** kernel/semaphore.c. */
module KernelSem {
  import opened PriorityQueue
  import opened KernelState
  import opened KernelMoves
  import opened KernelReap
  import opened KernelSched
  import opened KernelWake
  import opened KernelFiles

  function MajSem(s: Noyau, sid: int, count: int): Noyau {
    s.(sems := s.sems[sid := count])
  }

  function Scount(s: Noyau, sid: int): Issue {
    Rend(s, if sid in s.sems then s.sems[sid] else -1, 0)
  }

  function Screate(s: Noyau, count: int): Issue {
    if count < 0 || s.sidsLibres == [] then Rend(s, -1, 0)
    else
      Rend(SemNouveau(s, count), s.sidsLibres[0], 0)
  }

  /** sdelete once the waiting list is empty. */
  function SemRetire(s: Noyau, sid: int): Noyau {
    s.(sems := s.sems - {sid}, sidsLibres := Insert(s.sidsLibres, Position(s.sidsLibres, sid), sid))
  }

  function Sdelete(s: Noyau, sid: int): Issue {
    if sid !in s.sems then Rend(s, -1, 0)
    else Rend(SemRetire(ReveillerListe(s, Chaine(s, AttenteSem(sid)), -3), sid), 0, 0)
  }

  function Sreset(s: Noyau, sid: int, count: int): Issue {
    if sid !in s.sems || count < 0 then Rend(s, -1, 0)
    else Rend(MajSem(ReveillerListe(s, Chaine(s, AttenteSem(sid)), -4), sid, count), 0, 0)
  }

  /** queue_out of an empty waiting list returns NULL, which signal dereferences. */
  function Signal(s: Noyau, sid: int): Issue {
    if sid !in s.sems then Rend(s, -1, 0)
    else if s.sems[sid] > SHORTINT_MAX - 1 then Rend(s, -2, 0)
    else
      var s1, q := MajSem(s, sid, s.sems[sid] + 1), Chaine(s, AttenteSem(sid));
      if s.sems[sid] + 1 > 0 then Rend(s1, 0, 0)
      else if q == [] || q[0] !in s.procs then Panique
      else Rend(Reveil(s1, q[0], s.procs[q[0]].(operationStatus := 1)), 0, 0)
  }

  function Signaux(s: Noyau, sid: int, n: int): Issue
    decreases n
  {
    if n <= 0 then Rend(s, 0, 0)
    else match Signal(s, sid)
      case Rend(s1, _, _) => Signaux(s1, sid, n - 1)
      case _ => Panique
  }

  function Signaln(s: Noyau, sid: int, count: int): Issue {
    if sid !in s.sems then Rend(s, -1, 0)
    else if s.sems[sid] > SHORTINT_MAX - count then Rend(s, -2, 0)
    else Signaux(s, sid, count)
  }

  function TryWait(s: Noyau, sid: int): Issue {
    if sid !in s.sems then Rend(s, -1, 0)
    else if s.sems[sid] < SHORTINT_MIN + 1 then Rend(s, -2, 0)
    else if s.sems[sid] <= 0 then Rend(s, -3, 0)
    else Rend(MajSem(s, sid, s.sems[sid] - 1), 0, 0)
  }

  function Wait(s: Noyau, sid: int): Issue
    requires s.elu in s.procs
  {
    if sid !in s.sems then Rend(s, -1, 0)
    else if s.sems[sid] < SHORTINT_MIN + 1 then Rend(s, -2, 0)
    else
      var s1 := MajSem(s, sid, s.sems[sid] - 1);
      if s.sems[sid] - 1 < 0 then
        Suspend(Ordonnanceur(Deplacer(s1, s.elu, Elu(s).(etat := ATTEND_SEMAPHORE, suite := DansWait), AttenteSem(sid))))
      else Rend(s1, 0, 0)
  }

  function RepriseWait(s: Noyau): Issue
    requires s.elu in s.procs
  {
    Rend(Maj(s, s.elu, Elu(s).(suite := Utilisateur)),
         if Elu(s).operationStatus < 0 then Elu(s).operationStatus else 0, 0)
  }

  // ----- The invariant, and the meaning of the count ---------------------------------------

  /** A negative count is the number of waiting processes. */
  ghost predicate Compte(s: Noyau, sid: int) {
    sid in s.sems ==> |Chaine(s, AttenteSem(sid))| == if s.sems[sid] < 0 then -s.sems[sid] else 0
  }

  ghost predicate Comptes(s: Noyau) {
    forall sid :: Compte(s, sid)
  }

  /** What remains of it when waiters have been killed: there are never more of them than the
      count says. */
  ghost predicate Borne(s: Noyau, sid: int) {
    sid in s.sems ==> |Chaine(s, AttenteSem(sid))| <= if s.sems[sid] < 0 then -s.sems[sid] else 0
  }

  ghost predicate Bornes(s: Noyau) {
    forall sid :: Borne(s, sid)
  }

  lemma ComptesBornes(s: Noyau)
    requires Comptes(s)
    ensures Bornes(s)
  {
    forall k ensures Borne(s, k) { assert Compte(s, k); }
  }

  lemma MajSemCoherent(s: Noyau, sid: int, count: int)
    requires Coherent(s) && sid in s.sems && SHORTINT_MIN <= count <= SHORTINT_MAX
    ensures Coherent(MajSem(s, sid, count)) && (Preeminent(s) ==> Preeminent(MajSem(s, sid, count)))
    ensures forall r :: Chaine(MajSem(s, sid, count), r) == Chaine(s, r)
  {
    var s' := MajSem(s, sid, count);
    assert forall r :: Chaine(s', r) == Chaine(s, r);
    TriPareil(s, s');
    forall f ensures AttenteSaine(s', f) {
      assert AttenteSaine(s, f);
    }
  }

  /** A new semaphore, whose identifier leaves the free list. */
  function SemNouveau(s: Noyau, count: int): Noyau
    requires s.sidsLibres != []
  {
    s.(sidsLibres := s.sidsLibres[1..], sems := s.sems[s.sidsLibres[0] := count])
  }

  lemma SemNouveauSain(s: Noyau, count: int)
    requires Files(s) && Sems(s) && s.sidsLibres != [] && 0 <= count <= SHORTINT_MAX
    ensures Files(SemNouveau(s, count)) && Sems(SemNouveau(s, count))
    ensures Comptes(s) ==> Comptes(SemNouveau(s, count))
    ensures Bornes(s) ==> Bornes(SemNouveau(s, count))
  {
    var s', sid := SemNouveau(s, count), s.sidsLibres[0];
    assert sid in s.sidsLibres;
    assert forall r :: Chaine(s', r) == Chaine(s, r);
    NouveauFid(s.sidsLibres);
    forall f ensures AttenteSaine(s', f) {
      assert AttenteSaine(s, f);
    }
    forall k | Comptes(s) ensures Compte(s', k) {
      assert Compte(s, k);
    }
    forall k | Bornes(s) ensures Borne(s', k) {
      assert Borne(s, k);
    }
  }

  lemma ScreateInv(s: Noyau, count: int)
    requires Inv(s) && count <= SHORTINT_MAX
    ensures var s' := Screate(s, count).s;
      && Inv(s') && (Comptes(s) ==> Comptes(s')) && (Bornes(s) ==> Bornes(s')) && (Preeminent(s) ==> Preeminent(s'))
  {
    hide Tri, Famille, Table, Etats, Files, Sems, Comptes, Bornes, Preeminent;
    if count >= 0 && s.sidsLibres != [] {
      SemNouveauSain(s, count);
      MemesProcessus(s, SemNouveau(s, count));
    }
  }

  lemma ComptesVidee(s: Noyau, sid: int, status: int, s1: Noyau, s': Noyau)
    requires Comptes(s) && Videe(s, AttenteSem(sid), status, s1)
    requires forall r :: Chaine(s', r) == Chaine(s1, r)
    requires forall k :: k in s'.sems && k != sid ==> k in s.sems && s'.sems[k] == s.sems[k]
    requires sid in s'.sems ==> s'.sems[sid] >= 0
    ensures Comptes(s')
  {
    forall k ensures Compte(s', k) {
      assert Compte(s, k);
      assert k != sid ==> Chaine(s', AttenteSem(k)) == Chaine(s, AttenteSem(k));
    }
  }

  lemma BornesVidee(s: Noyau, sid: int, status: int, s1: Noyau, s': Noyau)
    requires Bornes(s) && Videe(s, AttenteSem(sid), status, s1)
    requires forall r :: Chaine(s', r) == Chaine(s1, r)
    requires forall k :: k in s'.sems && k != sid ==> k in s.sems && s'.sems[k] == s.sems[k]
    requires sid in s'.sems ==> s'.sems[sid] >= 0
    ensures Bornes(s')
  {
    forall k ensures Borne(s', k) {
      assert Borne(s, k);
      assert k != sid ==> Chaine(s', AttenteSem(k)) == Chaine(s, AttenteSem(k));
    }
  }

  lemma SemRetireCoherent(s: Noyau, sid: int)
    requires Coherent(s) && sid in s.sems && Chaine(s, AttenteSem(sid)) == []
    ensures Coherent(SemRetire(s, sid))
    ensures forall r :: Chaine(SemRetire(s, sid), r) == Chaine(s, r)
  {
    var s' := SemRetire(s, sid);
    assert forall r :: Chaine(s', r) == Chaine(s, r);
    TriPareil(s, s');
    InsertElems(s.sidsLibres, Position(s.sidsLibres, sid), sid);
    forall f ensures AttenteSaine(s', f) {
      assert AttenteSaine(s, f);
    }
  }

  lemma VidageSem(s: Noyau, sid: int, status: int) returns (s1: Noyau)
    requires Inv(s)
    ensures s1 == ReveillerListe(s, Chaine(s, AttenteSem(sid)), status)
    ensures Coherent(s1) && DefuntsSansPere(s1) && s1.elu == s.elu && s1.procs[s1.elu].etat == ELU && s1.sems == s.sems
    ensures Videe(s, AttenteSem(sid), status, s1) && Chaine(s1, AttenteSem(sid)) == []
  {
    hide ReveillerListe;
    s1 := ReveillerListe(s, Chaine(s, AttenteSem(sid)), status);
    ReveillerListeEffet(s, AttenteSem(sid), status);
  }

  /** Deleting or resetting a semaphore wakes everybody who waits on it, with -3 or -4.  No
      switch follows, so the woken may outrank the caller. */
  lemma SdeleteInv(s: Noyau, sid: int)
    requires Inv(s)
    ensures Sdelete(s, sid).Rend? && Inv(Sdelete(s, sid).s)
    ensures Comptes(s) ==> Comptes(Sdelete(s, sid).s)
    ensures Bornes(s) ==> Bornes(Sdelete(s, sid).s)
  {
    hide ReveillerListe, Videe;
    if sid in s.sems {
      var r := AttenteSem(sid);
      var s1 := VidageSem(s, sid, -3);
      SemRetireCoherent(s1, sid);
      if Comptes(s) { ComptesVidee(s, sid, -3, s1, SemRetire(s1, sid)); }
      if Bornes(s) { BornesVidee(s, sid, -3, s1, SemRetire(s1, sid)); }
    }
  }

  lemma SresetInv(s: Noyau, sid: int, count: int)
    requires Inv(s) && count <= SHORTINT_MAX
    ensures Sreset(s, sid, count).Rend? && Inv(Sreset(s, sid, count).s)
    ensures Comptes(s) ==> Comptes(Sreset(s, sid, count).s)
    ensures Bornes(s) ==> Bornes(Sreset(s, sid, count).s)
  {
    hide ReveillerListe, Videe;
    if sid in s.sems && count >= 0 {
      var r := AttenteSem(sid);
      var s1 := VidageSem(s, sid, -4);
      MajSemCoherent(s1, sid, count);
      if Comptes(s) { ComptesVidee(s, sid, -4, s1, MajSem(s1, sid, count)); }
      if Bornes(s) { BornesVidee(s, sid, -4, s1, MajSem(s1, sid, count)); }
    }
  }

  /** A semaphore operation on `sid` that changes its count and its waiting list together. */
  lemma ComptesAjustes(s: Noyau, sid: int, s': Noyau)
    requires Comptes(s) && Compte(s', sid)
    requires forall k :: k != sid ==> Chaine(s', AttenteSem(k)) == Chaine(s, AttenteSem(k))
    requires forall k :: k in s'.sems && k != sid ==> k in s.sems && s'.sems[k] == s.sems[k]
    ensures Comptes(s')
  {
    forall k ensures Compte(s', k) {
      assert Compte(s, k);
    }
  }

  lemma BornesAjustees(s: Noyau, sid: int, s': Noyau)
    requires Bornes(s) && Borne(s', sid)
    requires forall k :: k != sid ==> Chaine(s', AttenteSem(k)) == Chaine(s, AttenteSem(k))
    requires forall k :: k in s'.sems && k != sid ==> k in s.sems && s'.sems[k] == s.sems[k]
    ensures Bornes(s')
  {
    forall k ensures Borne(s', k) {
      assert Borne(s, k);
    }
  }

  /** signal stops the kernel exactly when the count promises a waiter that is not there. */
  lemma SignalPanique(s: Noyau, sid: int)
    requires Inv(s)
    ensures Signal(s, sid).Panique? <==> sid in s.sems && s.sems[sid] < 0 && Chaine(s, AttenteSem(sid)) == []
    ensures Comptes(s) ==> !Signal(s, sid).Panique?
  {
    if sid in s.sems {
      assert Compte(s, sid) || !Comptes(s);
      if Chaine(s, AttenteSem(sid)) != [] { TeteBloquee(s, AttenteSem(sid)); }
    }
  }

  lemma SignalInv(s: Noyau, sid: int)
    requires Inv(s) && !Signal(s, sid).Panique?
    ensures Inv(Signal(s, sid).s)
  {
    hide Reveil, Tri, Table, Trie, Famille, Files;
    if sid in s.sems && s.sems[sid] <= SHORTINT_MAX - 1 {
      var s1, q := MajSem(s, sid, s.sems[sid] + 1), Chaine(s, AttenteSem(sid));
      MajSemCoherent(s, sid, s.sems[sid] + 1);
      if s.sems[sid] + 1 <= 0 {
        TeteBloquee(s, AttenteSem(sid));
        ReveilCoherent(s1, q[0], s.procs[q[0]].(operationStatus := 1));
      }
    }
  }

  /** The oldest waiter of `sid`, if any, is made ready with status 1; nobody else moves. */
  ghost predicate Libere1(s: Noyau, sid: int, s': Noyau) {
    var q := Chaine(s, AttenteSem(sid));
    && (forall k :: k != sid ==> Chaine(s', AttenteSem(k)) == Chaine(s, AttenteSem(k)))
    && Chaine(s', AttenteSem(sid)) == (if q == [] then [] else q[1..])
    && s'.procs == if q != [] && q[0] in s.procs
         then s.procs[q[0] := Relache(s.procs[q[0]])] else s.procs
  }

  /** A process released by signal. */
  function Relache(p: Processus): Processus {
    p.(operationStatus := 1, etat := ACTIVABLE, chainage := Dans(ProcActivables))
  }

  /** One successful signal. */
  ghost predicate Signale(s: Noyau, sid: int, s': Noyau) {
    && sid in s.sems && s'.elu == s.elu && s'.sems == s.sems[sid := s.sems[sid] + 1] && Libere1(s, sid, s')
  }

  lemma SignalSimple(s: Noyau, sid: int)
    requires Inv(s) && sid in s.sems && 0 <= s.sems[sid] < SHORTINT_MAX && Chaine(s, AttenteSem(sid)) == []
    ensures var i := Signal(s, sid); i.Rend? && i.code == 0 && Signale(s, sid, i.s)
  {
  }

  /** The branch of signal that wakes somebody. */
  function SignalTete(s: Noyau, sid: int): Noyau
    requires sid in s.sems && Chaine(s, AttenteSem(sid)) != [] && Chaine(s, AttenteSem(sid))[0] in s.procs
  {
    var p := Chaine(s, AttenteSem(sid))[0];
    Reveil(MajSem(s, sid, s.sems[sid] + 1), p, s.procs[p].(operationStatus := 1))
  }

  lemma SignalDeplie(s: Noyau, sid: int)
    requires sid in s.sems && s.sems[sid] + 1 <= 0
    requires Chaine(s, AttenteSem(sid)) != [] && Chaine(s, AttenteSem(sid))[0] in s.procs
    ensures Signal(s, sid) == Rend(SignalTete(s, sid), 0, 0)
  {
  }

  lemma SignalTeteEffet(s: Noyau, sid: int)
    requires Chainages(s) && Etats(s) && s.procs[s.elu].etat == ELU
    requires sid in s.sems && s.sems[sid] + 1 <= 0 && Chaine(s, AttenteSem(sid)) != []
    ensures Chaine(s, AttenteSem(sid))[0] in s.procs && Signale(s, sid, SignalTete(s, sid))
  {
    hide Deplacer;
    var r, s1 := AttenteSem(sid), MajSem(s, sid, s.sems[sid] + 1);
    TeteBloquee(s, r);
    var p := Chaine(s, r)[0];
    assert forall x :: Chaine(s1, x) == Chaine(s, x);
    ReveilTeteEffet(s1, r, p, s.procs[p].(operationStatus := 1));
    SignaleDe(s, sid, p, s1, SignalTete(s, sid));
  }

  lemma SignaleDe(s: Noyau, sid: int, p: int, s1: Noyau, s': Noyau)
    requires sid in s.sems && s1 == MajSem(s, sid, s.sems[sid] + 1)
    requires Chaine(s, AttenteSem(sid)) != [] && p == Chaine(s, AttenteSem(sid))[0] && p in s.procs
    requires TeteActivee(s1, AttenteSem(sid), s.procs[p].(operationStatus := 1), s')
    ensures Signale(s, sid, s')
  {
    assert forall r :: Chaine(s1, r) == Chaine(s, r);
  }

  lemma SignalReveille(s: Noyau, sid: int)
    requires Inv(s) && sid in s.sems && s.sems[sid] + 1 <= 0 && Chaine(s, AttenteSem(sid)) != []
    ensures var i := Signal(s, sid); i.Rend? && i.code == 0 && Signale(s, sid, i.s)
  {
    SignalTeteEffet(s, sid);
    SignalDeplie(s, sid);
  }

  /** signal adds one to the count, or changes nothing and answers -2; if processes wait, the
      oldest of them becomes ready. */
  lemma SignalEffet(s: Noyau, sid: int)
    requires Inv(s) && Bornes(s) && sid in s.sems && !Signal(s, sid).Panique?
    ensures var i := Signal(s, sid);
      if s.sems[sid] == SHORTINT_MAX then i == Rend(s, -2, 0)
      else i.Rend? && i.code == 0 && Signale(s, sid, i.s) && Inv(i.s) && Bornes(i.s) && (Comptes(s) ==> Comptes(i.s))
  {
    assert Borne(s, sid);
    if s.sems[sid] != SHORTINT_MAX {
      if s.sems[sid] >= 0 {
        SignalSimple(s, sid);
      } else {
        SignalPanique(s, sid);
        SignalReveille(s, sid);
      }
      SignalInv(s, sid);
      BornesAjustees(s, sid, Signal(s, sid).s);
      if Comptes(s) {
        assert Compte(s, sid);
        ComptesAjustes(s, sid, Signal(s, sid).s);
      }
    }
  }

  // ----- signaln ----------------------------------------------------------------------------

  /** The first `n` of `q`, all of it if it is shorter. */
  function Premiers(q: seq<int>, n: nat): seq<int> {
    if n <= |q| then q[..n] else q
  }

  /** `n` waiters of `sid` released, oldest first. */
  ghost predicate Liberes(s: Noyau, sid: int, n: nat, s': Noyau) {
    var q := Chaine(s, AttenteSem(sid));
    && (forall k :: k != sid ==> Chaine(s', AttenteSem(k)) == Chaine(s, AttenteSem(k)))
    && Chaine(s', AttenteSem(sid)) == q[|Premiers(q, n)|..]
    && s'.procs.Keys == s.procs.Keys
    && forall x :: x in s.procs ==> s'.procs[x] == if x in Premiers(q, n) then Relache(s.procs[x]) else s.procs[x]
  }

  /** `n` successful signals. */
  ghost predicate Signales(s: Noyau, sid: int, n: nat, s': Noyau) {
    && sid in s.sems && s'.elu == s.elu && s'.sems == s.sems[sid := s.sems[sid] + n] && Liberes(s, sid, n, s')
  }

  lemma {:induction false} SignauxInv(s: Noyau, sid: int, n: nat)
    requires Inv(s) && Bornes(s) && sid in s.sems && s.sems[sid] + n <= SHORTINT_MAX && !Signaux(s, sid, n).Panique?
    ensures var i := Signaux(s, sid, n);
      i.Rend? && i.code == 0 && Inv(i.s) && Bornes(i.s) && (Comptes(s) ==> Comptes(i.s))
    decreases n
  {
    hide Signal, Inv, Comptes, Bornes, Libere1;
    if n > 0 {
      SignauxPremier(s, sid, n);
      SignalEffet(s, sid);
      SignauxInv(Signal(s, sid).s, sid, n - 1);
    }
  }

  lemma {:induction false} SignauxEffet(s: Noyau, sid: int, n: nat)
    requires Inv(s) && Bornes(s) && sid in s.sems && s.sems[sid] + n <= SHORTINT_MAX && !Signaux(s, sid, n).Panique?
    ensures Signaux(s, sid, n).Rend? && Signales(s, sid, n, Signaux(s, sid, n).s)
    decreases n
  {
    hide Signal, Inv, Comptes, Bornes, Libere1;
    if n == 0 {
      assert s.sems[sid := s.sems[sid]] == s.sems;
      assert Chaine(s, AttenteSem(sid))[0..] == Chaine(s, AttenteSem(sid));
    } else {
      SignauxPremier(s, sid, n);
      SignalEffet(s, sid);
      var s1 := Signal(s, sid).s;
      SignauxEffet(s1, sid, n - 1);
      QueueSansDoublon(s, sid);
      LiberesEncore(s, sid, n, s1, Signaux(s1, sid, n - 1).s);
    }
  }

  /** Signals that all go well: the first one does, and so do the others after it. */
  lemma SignauxPremier(s: Noyau, sid: int, n: nat)
    requires n > 0 && !Signaux(s, sid, n).Panique?
    ensures Signal(s, sid).Rend? && Signaux(s, sid, n) == Signaux(Signal(s, sid).s, sid, n - 1)
  {
  }

  lemma SignauxDeplie(s: Noyau, sid: int, n: nat)
    requires n > 0 && Signal(s, sid).Rend?
    ensures Signaux(s, sid, n) == Signaux(Signal(s, sid).s, sid, n - 1)
  {
  }

  lemma QueueSansDoublon(s: Noyau, sid: int)
    requires Inv(s)
    ensures NoDup(Chaine(s, AttenteSem(sid)))
    ensures forall x :: x in Chaine(s, AttenteSem(sid)) ==> x in s.procs
  {
  }

  lemma LiberesEncore(s: Noyau, sid: int, n: nat, s1: Noyau, s': Noyau)
    requires n > 0 && NoDup(Chaine(s, AttenteSem(sid)))
    requires forall x :: x in Chaine(s, AttenteSem(sid)) ==> x in s.procs
    requires Signale(s, sid, s1) && Signales(s1, sid, n - 1, s')
    ensures Signales(s, sid, n, s')
  {
    var q := Chaine(s, AttenteSem(sid));
    assert s'.sems == s.sems[sid := s.sems[sid] + n];
    if q != [] {
      assert q[0] in q;
      NoDupTail(q);
      assert Premiers(q, n) == [q[0]] + Premiers(q[1..], n - 1);
      forall x ensures x in Premiers(q, n) <==> x == q[0] || x in Premiers(q[1..], n - 1) {
      }
      assert q[1..][|Premiers(q[1..], n - 1)|..] == q[|Premiers(q, n)|..];
    }
  }

  /** For n >= 0, signaln either answers -2 and changes nothing, exactly when n signals would
      overflow, or equals n signals and releases exactly the oldest waiters, at most n. */
  lemma SignalnAtomique(s: Noyau, sid: int, n: nat)
    requires Inv(s) && Bornes(s) && sid in s.sems && !Signaln(s, sid, n).Panique?
    ensures var i := Signaln(s, sid, n);
      if s.sems[sid] + n > SHORTINT_MAX then i == Rend(s, -2, 0)
      else
        && i == Signaux(s, sid, n) && i.Rend? && i.code == 0 && Inv(i.s) && Signales(s, sid, n, i.s)
        && Bornes(i.s) && (Comptes(s) ==> Comptes(i.s))
  {
    if s.sems[sid] + n <= SHORTINT_MAX {
      SignauxInv(s, sid, n);
      SignauxEffet(s, sid, n);
    }
  }

  // ----- wait -------------------------------------------------------------------------------

  /** Waiters queue up in order of arrival. */
  lemma WaitFifo(s: Noyau, sid: int, rec: Processus)
    requires Chainages(s) && s.elu in s.procs && s.procs[s.elu].chainage == Libre
    ensures Chaine(Deplacer(s, s.elu, rec, AttenteSem(sid)), AttenteSem(sid)) == Chaine(s, AttenteSem(sid)) + [s.elu]
  {
    var r := AttenteSem(sid);
    var q := Chaine(s, r);
    DeplacerEffet(s, s.elu, rec, r);
    HorsFile(s, s.elu, r);
    ConstantKeyIsFifo(q, Cles(s.procs, Place, q), s.elu, 0);
  }

  lemma OrdonnanceurSems(s: Noyau, k: int)
    requires Coherent(s) && DefuntsSansPere(s) && !Condamne(s, s.elu)
    ensures Chaine(Ordonnanceur(s), AttenteSem(k)) == Chaine(s, AttenteSem(k))
    ensures Ordonnanceur(s).sems == s.sems
  {
    OrdonnanceurAutres(s, AttenteSem(k));
  }

  /** The caller is ready to be put on the waiting list. */
  lemma WaitEnAttente(s: Noyau, sid: int)
    requires Inv(s) && s.elu != IDLE && sid in s.sems && s.sems[sid] > SHORTINT_MIN
    ensures s.elu in s.procs
    ensures var s1 := MajSem(s, sid, s.sems[sid] - 1);
      Inv(s1) && s1.elu == s.elu && s1.procs == s.procs && (Preeminent(s) ==> Preeminent(s1))
    ensures var s1 := MajSem(s, sid, s.sems[sid] - 1);
      var rec := Elu(s).(etat := ATTEND_SEMAPHORE, suite := DansWait);
      && EnAttente(rec.etat) && Accord(rec.(chainage := Dans(AttenteSem(sid)))) && Admis(s1, rec, AttenteSem(sid))
      && rec.prio == Elu(s).prio && rec.pere == Elu(s).pere && rec.fils == Elu(s).fils && AttenteFondee(rec)
  {
    MajSemCoherent(s, sid, s.sems[sid] - 1);
  }

  lemma WaitInv(s: Noyau, sid: int)
    requires Inv(s) && s.elu != IDLE
    ensures var i := Wait(s, sid); !i.Panique? && Inv(i.s) && (Preeminent(s) ==> Preeminent(i.s))
  {
    hide Deplacer, Ordonnanceur, Inv, Coherent, Preeminent, MajSem, Admis, Accord, AttenteFondee;
    if sid in s.sems && s.sems[sid] > SHORTINT_MIN {
      WaitEnAttente(s, sid);
      if s.sems[sid] - 1 < 0 {
        SuspendreInv(MajSem(s, sid, s.sems[sid] - 1), Elu(s).(etat := ATTEND_SEMAPHORE, suite := DansWait), AttenteSem(sid));
      }
    }
  }

  /** wait takes one from the count, or changes nothing and answers -2; when the new count is
      negative the caller goes to the end of the waiting list. */
  lemma WaitEffet(s: Noyau, sid: int)
    requires Inv(s) && s.elu != IDLE && sid in s.sems
    ensures var i := Wait(s, sid);
      if s.sems[sid] == SHORTINT_MIN then i == Rend(s, -2, 0)
      else
        && i.s.sems == s.sems[sid := s.sems[sid] - 1]
        && (if s.sems[sid] <= 0 then i.Suspend? else i == Rend(MajSem(s, sid, s.sems[sid] - 1), 0, 0))
        && Chaine(i.s, AttenteSem(sid)) == Chaine(s, AttenteSem(sid)) + (if i.Suspend? then [s.elu] else [])
        && (forall k :: k != sid ==> Chaine(i.s, AttenteSem(k)) == Chaine(s, AttenteSem(k)))
  {
    hide Deplacer, Ordonnanceur, Inv, Coherent, Admis, Accord, AttenteFondee, Preeminent;
    EluLibre(s);
    if s.sems[sid] > SHORTINT_MIN && s.sems[sid] <= 0 {
      var s1 := MajSem(s, sid, s.sems[sid] - 1);
      WaitEnAttente(s, sid);
      EluLibre(s1);
      var rec := Elu(s).(etat := ATTEND_SEMAPHORE, suite := DansWait);
      WaitFifo(s1, sid, rec);
      WaitSuspendu(s1, sid, rec);
    }
    MemesChaines(s, sid);
  }

  lemma EluLibre(s: Noyau)
    requires Inv(s)
    ensures Chainages(s) && s.elu in s.procs && s.procs[s.elu].chainage == Libre
    ensures forall k :: k in s.sems ==> SHORTINT_MIN <= s.sems[k] <= SHORTINT_MAX
  {
  }

  lemma MemesChaines(s: Noyau, sid: int)
    ensures forall c, r :: Chaine(MajSem(s, sid, c), r) == Chaine(s, r)
  {
  }

  lemma WaitSuspendu(s: Noyau, sid: int, rec: Processus)
    requires Inv(s) && s.elu != IDLE && sid in s.sems
    requires rec == Elu(s).(etat := ATTEND_SEMAPHORE, suite := DansWait)
    ensures var s1 := Deplacer(s, s.elu, rec, AttenteSem(sid)); var s' := Ordonnanceur(s1);
      && s'.sems == s.sems && Chaine(s', AttenteSem(sid)) == Chaine(s1, AttenteSem(sid))
      && (forall k :: k != sid ==> Chaine(s', AttenteSem(k)) == Chaine(s, AttenteSem(k)))
  {
    var r := AttenteSem(sid);
    var s1 := Deplacer(s, s.elu, rec, r);
    DeplacerCoherent(s, s.elu, rec, r);
    DeplacerEffet(s, s.elu, rec, r);
    EluSauf(s1);
    forall k ensures Chaine(Ordonnanceur(s1), AttenteSem(k)) == Chaine(s1, AttenteSem(k)) && Ordonnanceur(s1).sems == s.sems
    {
      OrdonnanceurSems(s1, k);
    }
    forall k | k != sid ensures Chaine(s1, AttenteSem(k)) == Chaine(s, AttenteSem(k)) {
      HorsFile(s, s.elu, AttenteSem(k));
    }
  }

  lemma WaitComptes(s: Noyau, sid: int)
    requires Inv(s) && s.elu != IDLE
    ensures !Wait(s, sid).Panique?
    ensures Comptes(s) ==> Comptes(Wait(s, sid).s)
    ensures Bornes(s) ==> Bornes(Wait(s, sid).s)
  {
    hide Deplacer, Ordonnanceur, Comptes, Bornes;
    if sid in s.sems && s.sems[sid] > SHORTINT_MIN {
      WaitEffet(s, sid);
      var s' := Wait(s, sid).s;
      if Comptes(s) { CompteDe(s, sid); ComptesAjustes(s, sid, s'); }
      if Bornes(s) { BorneDe(s, sid); BornesAjustees(s, sid, s'); }
    }
  }

  lemma CompteDe(s: Noyau, sid: int)
    requires Comptes(s)
    ensures Compte(s, sid)
  {
  }

  lemma BorneDe(s: Noyau, sid: int)
    requires Bornes(s)
    ensures Borne(s, sid)
  {
  }

  lemma TryWaitInv(s: Noyau, sid: int)
    requires Inv(s)
    ensures TryWait(s, sid).Rend? && Inv(TryWait(s, sid).s) && (Preeminent(s) ==> Preeminent(TryWait(s, sid).s))
    ensures Comptes(s) ==> Comptes(TryWait(s, sid).s)
    ensures Bornes(s) ==> Bornes(TryWait(s, sid).s)
  {
    hide Tri, Famille, Files, Trie, Chainages;
    if sid in s.sems && s.sems[sid] > 0 {
      MajSemCoherent(s, sid, s.sems[sid] - 1);
      if Bornes(s) {
        assert Borne(s, sid);
        BornesAjustees(s, sid, TryWait(s, sid).s);
      }
      if Comptes(s) {
        assert Compte(s, sid);
        ComptesAjustes(s, sid, TryWait(s, sid).s);
      }
    }
  }

  lemma RepriseWaitInv(s: Noyau)
    requires Inv(s)
    ensures RepriseWait(s).Rend? && Inv(RepriseWait(s).s) && (Preeminent(s) ==> Preeminent(RepriseWait(s).s))
  {
    MajEluInv(s, Elu(s).(suite := Utilisateur));
  }
}
