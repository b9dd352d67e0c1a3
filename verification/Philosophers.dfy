/** The dining philosophers of user/test_semaphore.c, for any ring of at least three.

    Every philosopher runs `philosophe`; a step is one atomic action of one of them.  A wait is
    a step that is possible only while the semaphore is positive, a signal adds one, as
    KernelRuns.CourseUnites says of the semaphores of the kernel; the code between a wait and the
    signal of the mutex is one step for prendre_fourchettes and for the display of a state, and
    one step per `if` for poser_fourchettes. */
module Philosophers {

  /** Where a philosopher is in its program. */
  datatype Phase =
    | Faim        // before the wait(mutex) of prendre_fourchettes
    | Prend       // in its critical section
    | Attend      // at wait(s[i])
    | VaManger | AfficheMange
    | Mange | AfficheRepu
    | VaPoser
    | PoseGauche  // in the critical section of poser_fourchettes, before its first `if`
    | PoseDroite  // before its second
    | VaPenser | AffichePense
    | Pense | AfficheVide
    | VaFinir | AfficheFin
    | Fini

  datatype Table = Table(
    mutex: int, f: seq<bool>, bloque: seq<bool>, etat: seq<char>, s: seq<int>,
    phase: seq<Phase>, reste: seq<nat>)

  function Droite(n: nat, i: nat): (r: nat)
    requires i < n
    ensures r < n && (n >= 2 ==> r != i)
  {
    if i + 1 == n then 0 else i + 1
  }

  function Gauche(n: nat, i: nat): (r: nat)
    requires i < n
    ensures r < n && Droite(n, r) == i && (n >= 2 ==> r != i) && (n >= 3 ==> r != Droite(n, i))
  {
    if i == 0 then n - 1 else i - 1
  }

  /** The index expressions of the C code. */
  lemma Modulo(n: nat, i: nat)
    requires i < n
    ensures (i + 1) % n == Droite(n, i) && (i + n - 1) % n == Gauche(n, i)
    ensures n >= 2 ==> (i + 2) % n == Droite(n, Droite(n, i))
  {
    UnTour(i + 1, n);
    UnTour(i + n - 1, n);
    if n >= 2 { UnTour(i + 2, n); }
  }

  lemma UnTour(a: nat, n: nat)
    requires 0 < n && a < 2 * n
    ensures a % n == if a < n then a else a - n
  {
    if a >= n { assert a == n * 1 + (a - n); }
  }

  predicate EnSection(p: Phase) {
    p == Prend || p == AfficheMange || p == AfficheRepu || p == PoseGauche || p == PoseDroite || p == AffichePense
    || p == AfficheVide || p == AfficheFin
  }

  predicate Forme(t: Table) {
    var n := |t.f|;
    n >= 3 && |t.bloque| == n && |t.etat| == n && |t.s| == n && |t.phase| == n && |t.reste| == n
  }

  // ----- The steps ----------------------------------------------------------------------------

  /** The two forks of `i` are free. */
  predicate Test(t: Table, i: nat)
    requires Forme(t) && i < |t.f|
  {
    !t.f[i] && !t.f[Droite(|t.f|, i)]
  }

  function Prendre(t: Table, i: nat): Table
    requires Forme(t) && i < |t.f|
  {
    if Test(t, i) then t.(f := t.f[i := true][Droite(|t.f|, i) := true], s := t.s[i := t.s[i] + 1])
    else t.(bloque := t.bloque[i := true])
  }

  /** The first `if` of poser_fourchettes: fork `i` goes to the left neighbour, or is put down. */
  function PoserGauche(t: Table, i: nat): Table
    requires Forme(t) && i < |t.f|
  {
    var g := Gauche(|t.f|, i);
    if t.bloque[g] && !t.f[g] then t.(f := t.f[g := true], bloque := t.bloque[g := false], s := t.s[g := t.s[g] + 1])
    else t.(f := t.f[i := false])
  }

  /** The second: fork `i + 1` goes to the right neighbour, or is put down. */
  function PoserDroite(t: Table, i: nat): Table
    requires Forme(t) && i < |t.f|
  {
    var d := Droite(|t.f|, i);
    var dd := Droite(|t.f|, d);
    if t.bloque[d] && !t.f[dd] then t.(f := t.f[dd := true], bloque := t.bloque[d := false], s := t.s[d := t.s[d] + 1])
    else t.(f := t.f[d := false])
  }

  /** Whether philosopher `i` can take a step: wait needs a positive count. */
  predicate Possible(t: Table, i: nat)
    requires Forme(t)
  {
    i < |t.f| && t.phase[i] != Fini &&
    (EnSection(t.phase[i]) || if t.phase[i] == Attend then t.s[i] > 0 else t.mutex > 0)
  }

  function Suivante(p: Phase, dernier: bool): Phase {
    match p
    case Faim => Prend
    case Prend => Attend
    case Attend => VaManger
    case VaManger => AfficheMange
    case AfficheMange => Mange
    case Mange => AfficheRepu
    case AfficheRepu => VaPoser
    case VaPoser => PoseGauche
    case PoseGauche => PoseDroite
    case PoseDroite => VaPenser
    case VaPenser => AffichePense
    case AffichePense => Pense
    case Pense => AfficheVide
    case AfficheVide => if dernier then VaFinir else Faim
    case VaFinir => AfficheFin
    case AfficheFin => Fini
    case Fini => Fini
  }

  /** What the step does to the shared variables. */
  function Agir(t: Table, i: nat): Table
    requires Forme(t) && i < |t.f|
  {
    match t.phase[i]
    case Prend => Prendre(t, i).(mutex := t.mutex + 1)
    case Attend => t.(s := t.s[i := t.s[i] - 1])
    case AfficheMange => t.(etat := t.etat[i := 'm'], mutex := t.mutex + 1)
    case AfficheRepu => t.(etat := t.etat[i := '-'], mutex := t.mutex + 1)
    case PoseGauche => PoserGauche(t, i)
    case PoseDroite => PoserDroite(t, i).(mutex := t.mutex + 1)
    case AffichePense => t.(etat := t.etat[i := 'p'], mutex := t.mutex + 1)
    case AfficheVide => t.(etat := t.etat[i := '-'], mutex := t.mutex + 1)
    case AfficheFin => t.(etat := t.etat[i := '-'], mutex := t.mutex + 1)
    case Fini => t
    case _ => t.(mutex := t.mutex - 1)
  }

  function Pas(t: Table, i: nat): Table
    requires Forme(t) && i < |t.f|
  {
    var fin := t.phase[i] == AfficheVide;
    Agir(t, i).(phase := t.phase[i := Suivante(t.phase[i], t.reste[i] <= 1)],
                reste := if fin && t.reste[i] > 0 then t.reste[i := t.reste[i] - 1] else t.reste)
  }

  // ----- The invariant ----------------------------------------------------------------------------

  /** Philosopher `i` has been granted its two forks, and has not begun to put them down. */
  predicate Servi(t: Table, i: nat)
    requires Forme(t) && i < |t.f|
  {
    match t.phase[i]
    case Attend => t.s[i] == 1
    case VaManger => true
    case AfficheMange => true
    case Mange => true
    case AfficheRepu => true
    case VaPoser => true
    case PoseGauche => true
    case _ => false
  }

  /** ... or has put down the left one only. */
  predicate TientDroite(t: Table, i: nat)
    requires Forme(t) && i < |t.f|
  {
    Servi(t, i) || t.phase[i] == PoseDroite
  }

  /** Fork `j` is marked used iff exactly one of its two neighbours has been granted it. */
  predicate Fourchette(t: Table, j: nat)
    requires Forme(t) && j < |t.f|
  {
    (t.f[j] <==> Servi(t, j) || TientDroite(t, Gauche(|t.f|, j)))
    && !(Servi(t, j) && TientDroite(t, Gauche(|t.f|, j)))
  }

  /** The private semaphore holds at most one grant, only while its owner is about to use it;
      a philosopher is marked blocked iff it waits without one, and then a fork beside it is
      used, so that no grant has been missed. */
  predicate Prive(t: Table, i: nat)
    requires Forme(t) && i < |t.f|
  {
    && 0 <= t.s[i] <= 1 && (t.s[i] == 1 ==> t.phase[i] == Attend)
    && (t.bloque[i] <==> t.phase[i] == Attend && t.s[i] == 0)
    && (t.bloque[i] ==> t.f[i] || t.f[Droite(|t.f|, i)])
    && (t.etat[i] == 'm' ==> t.phase[i] == Mange || t.phase[i] == AfficheRepu)
    && (t.reste[i] == 0 ==> t.phase[i] == VaFinir || t.phase[i] == AfficheFin || t.phase[i] == Fini)
  }

  /** Mutual exclusion. */
  ghost predicate Exclusion(t: Table)
    requires Forme(t)
  {
    && 0 <= t.mutex <= 1
    && (forall i :: 0 <= i < |t.f| && EnSection(t.phase[i]) ==> t.mutex == 0)
    && (t.mutex == 0 ==> exists i :: 0 <= i < |t.f| && EnSection(t.phase[i]))
    && (forall i, j :: 0 <= i < |t.f| && 0 <= j < |t.f| && EnSection(t.phase[i]) && EnSection(t.phase[j]) ==> i == j)
  }

  ghost predicate Inv(t: Table) {
    && Forme(t) && Exclusion(t)
    && (forall j :: 0 <= j < |t.f| ==> Fourchette(t, j))
    && (forall i :: 0 <= i < |t.f| ==> Prive(t, i))
  }

  /** test200, once the semaphores are created; each philosopher has `k` turns to take. */
  function Depart(n: nat, k: nat): Table {
    Table(1, seq(n, _ => false), seq(n, _ => false), seq(n, _ => '-'), seq(n, _ => 0), seq(n, _ => Faim), seq(n, _ => k))
  }

  lemma DepartInv(n: nat, k: nat)
    requires n >= 3 && k >= 1
    ensures Inv(Depart(n, k))
  {
  }

  lemma PasForme(t: Table, i: nat)
    requires Forme(t) && i < |t.f|
    ensures Forme(Pas(t, i)) && |Pas(t, i).f| == |t.f|
    ensures forall j :: 0 <= j < |t.f| && j != i ==> Pas(t, i).phase[j] == t.phase[j]
  {
  }

  lemma PasExclusion(t: Table, i: nat)
    requires Inv(t) && Possible(t, i)
    ensures Forme(Pas(t, i)) && Exclusion(Pas(t, i))
  {
    PasForme(t, i);
    var t' := Pas(t, i);
    if !EnSection(t.phase[i]) && t.phase[i] != Attend {
      assert EnSection(t'.phase[i]);
    }
    if t.phase[i] == Attend && t.mutex == 0 {
      var j :| 0 <= j < |t.f| && EnSection(t.phase[j]);
      assert EnSection(t'.phase[j]);
    }
    if t.phase[i] == PoseGauche { assert EnSection(t'.phase[i]); }
  }

  /** What a step of `i` can touch. */
  predicate Voisinage(t: Table, i: nat)
    requires Forme(t) && i < |t.f|
  {
    var n := |t.f|;
    var g, d := Gauche(n, i), Droite(n, i);
    && Fourchette(t, i) && Fourchette(t, d) && Fourchette(t, g) && Fourchette(t, Droite(n, d))
    && Prive(t, i) && Prive(t, g) && Prive(t, d)
  }

  lemma SectionFourchette(t: Table, i: nat, j: nat)
    requires Forme(t) && i < |t.f| && j < |t.f| && Voisinage(t, i) && Fourchette(t, j)
    requires t.phase[i] == Prend
    ensures Forme(Pas(t, i)) && Fourchette(Pas(t, i), j)
  {
    PasForme(t, i);
  }

  lemma GaucheFourchette(t: Table, i: nat, j: nat)
    requires Forme(t) && i < |t.f| && j < |t.f| && Voisinage(t, i) && Fourchette(t, j)
    requires t.phase[i] == PoseGauche
    ensures Forme(Pas(t, i)) && Fourchette(Pas(t, i), j)
  {
    PasForme(t, i);
  }

  lemma DroiteFourchette(t: Table, i: nat, j: nat)
    requires Forme(t) && i < |t.f| && j < |t.f| && Voisinage(t, i) && Fourchette(t, j)
    requires t.phase[i] == PoseDroite
    ensures Forme(Pas(t, i)) && Fourchette(Pas(t, i), j)
  {
    PasForme(t, i);
  }

  lemma AutreFourchette(t: Table, i: nat, j: nat)
    requires Forme(t) && Possible(t, i) && j < |t.f| && Voisinage(t, i) && Fourchette(t, j)
    requires t.phase[i] != Prend && t.phase[i] != PoseGauche && t.phase[i] != PoseDroite
    ensures Forme(Pas(t, i)) && Fourchette(Pas(t, i), j)
  {
    PasForme(t, i);
    AutreServi(t, i, j);
    AutreServi(t, i, Gauche(|t.f|, j));
    hide Pas, Servi, TientDroite;
  }

  lemma AutreServi(t: Table, i: nat, j: nat)
    requires Forme(t) && Possible(t, i) && j < |t.f| && Prive(t, i)
    requires t.phase[i] != Prend && t.phase[i] != PoseGauche && t.phase[i] != PoseDroite
    ensures Forme(Pas(t, i)) && Pas(t, i).f == t.f
    ensures (Servi(Pas(t, i), j) <==> Servi(t, j)) && (TientDroite(Pas(t, i), j) <==> TientDroite(t, j))
  {
    PasForme(t, i);
  }

  lemma PasFourchette(t: Table, i: nat, j: nat)
    requires Inv(t) && Possible(t, i) && j < |t.f|
    ensures Forme(Pas(t, i)) && Fourchette(Pas(t, i), j)
  {
    hide Pas, Fourchette, Prive;
    assert Fourchette(t, j);
    VoisinageDe(t, i);
    if t.phase[i] == Prend { SectionFourchette(t, i, j); }
    else if t.phase[i] == PoseGauche { GaucheFourchette(t, i, j); }
    else if t.phase[i] == PoseDroite { DroiteFourchette(t, i, j); }
    else { AutreFourchette(t, i, j); }
  }

  lemma VoisinageDe(t: Table, i: nat)
    requires Inv(t) && i < |t.f|
    ensures Voisinage(t, i)
  {
    hide Fourchette, Prive;
  }

  lemma SectionPrive(t: Table, i: nat, j: nat)
    requires Forme(t) && i < |t.f| && j < |t.f| && Voisinage(t, i) && Prive(t, j)
    requires t.phase[i] == Prend
    ensures Forme(Pas(t, i)) && Prive(Pas(t, i), j)
  {
    PasForme(t, i);
  }

  lemma GauchePrive(t: Table, i: nat, j: nat)
    requires Forme(t) && i < |t.f| && j < |t.f| && Voisinage(t, i) && Prive(t, j)
    requires t.phase[i] == PoseGauche
    ensures Forme(Pas(t, i)) && Prive(Pas(t, i), j)
  {
    PasForme(t, i);
  }

  lemma DroitePrive(t: Table, i: nat, j: nat)
    requires Forme(t) && i < |t.f| && j < |t.f| && Voisinage(t, i) && Prive(t, j)
    requires t.phase[i] == PoseDroite
    ensures Forme(Pas(t, i)) && Prive(Pas(t, i), j)
  {
    PasForme(t, i);
  }

  lemma AutrePrive(t: Table, i: nat, j: nat)
    requires Forme(t) && Possible(t, i) && j < |t.f| && Voisinage(t, i) && Prive(t, j)
    requires t.phase[i] != Prend && t.phase[i] != PoseGauche && t.phase[i] != PoseDroite
    ensures Forme(Pas(t, i)) && Prive(Pas(t, i), j)
  {
    PasForme(t, i);
  }

  lemma PasPrive(t: Table, i: nat, j: nat)
    requires Inv(t) && Possible(t, i) && j < |t.f|
    ensures Forme(Pas(t, i)) && Prive(Pas(t, i), j)
  {
    hide Pas, Fourchette, Prive;
    assert Prive(t, j);
    VoisinageDe(t, i);
    if t.phase[i] == Prend { SectionPrive(t, i, j); }
    else if t.phase[i] == PoseGauche { GauchePrive(t, i, j); }
    else if t.phase[i] == PoseDroite { DroitePrive(t, i, j); }
    else { AutrePrive(t, i, j); }
  }

  /** Every step keeps the invariant. */
  lemma PasInv(t: Table, i: nat)
    requires Inv(t) && Possible(t, i)
    ensures Inv(Pas(t, i))
  {
    PasForme(t, i);
    PasExclusion(t, i);
    forall j | 0 <= j < |t.f| ensures Fourchette(Pas(t, i), j) && Prive(Pas(t, i), j) {
      PasFourchette(t, i, j);
      PasPrive(t, i, j);
    }
  }

  // ----- Safety, and no deadlock ----------------------------------------------------------------------

  /** Two neighbours never hold the fork between them together, so they never eat together, and are
      never displayed as doing so. */
  lemma JamaisEnsemble(t: Table, i: nat)
    requires Inv(t) && i < |t.f|
    ensures var d := Droite(|t.f|, i);
      && !(TientDroite(t, i) && Servi(t, d))
      && !(t.phase[i] == Mange && t.phase[d] == Mange)
      && !(t.etat[i] == 'm' && t.etat[d] == 'm')
  {
    var d := Droite(|t.f|, i);
    assert Prive(t, i) && Prive(t, d) && Fourchette(t, d);
    assert Gauche(|t.f|, d) == i;
  }

  /** Unless everybody is done, somebody can go on. */
  lemma PasDInterblocage(t: Table)
    requires Inv(t) && exists i :: 0 <= i < |t.f| && t.phase[i] != Fini
    ensures exists i :: 0 <= i < |t.f| && Possible(t, i)
  {
    var i :| 0 <= i < |t.f| && t.phase[i] != Fini;
    if t.mutex == 0 {
      var j :| 0 <= j < |t.f| && EnSection(t.phase[j]);
      assert Possible(t, j);
    } else if t.phase[i] == Attend && t.s[i] == 0 {
      var n := |t.f|;
      assert Prive(t, i);
      var j := if t.f[i] then i else Droite(n, i);
      assert t.f[j] && Fourchette(t, j);
      var h := if Servi(t, j) then j else Gauche(n, j);
      assert Prive(t, h) && TientDroite(t, h);
      assert Possible(t, h);
    } else {
      assert Prive(t, i);
      assert Possible(t, i);
    }
  }

  // ----- Everybody finishes ---------------------------------------------------------------------------

  /** The steps philosopher `i` still has to take. */
  function Travail(p: Phase, reste: nat): nat {
    var plus := if reste > 0 then 14 * (reste - 1) else 0;
    match p
    case Faim => 16 + plus
    case Prend => 15 + plus
    case Attend => 14 + plus
    case VaManger => 13 + plus
    case AfficheMange => 12 + plus
    case Mange => 11 + plus
    case AfficheRepu => 10 + plus
    case VaPoser => 9 + plus
    case PoseGauche => 8 + plus
    case PoseDroite => 7 + plus
    case VaPenser => 6 + plus
    case AffichePense => 5 + plus
    case Pense => 4 + plus
    case AfficheVide => 3 + plus
    case VaFinir => 2
    case AfficheFin => 1
    case Fini => 0
  }

  function Total(phase: seq<Phase>, reste: seq<nat>): nat
    requires |phase| == |reste|
  {
    if phase == [] then 0 else Travail(phase[0], reste[0]) + Total(phase[1..], reste[1..])
  }

  lemma {:induction false} TotalMaj(phase: seq<Phase>, reste: seq<nat>, i: nat, p: Phase, r: nat)
    requires |phase| == |reste| && i < |phase|
    ensures Total(phase[i := p], reste[i := r]) == Total(phase, reste) - Travail(phase[i], reste[i]) + Travail(p, r)
  {
    if i == 0 {
      assert phase[0 := p][1..] == phase[1..] && reste[0 := r][1..] == reste[1..];
    } else {
      TotalMaj(phase[1..], reste[1..], i - 1, p, r);
      assert phase[i := p][1..] == phase[1..][i-1 := p];
      assert reste[i := r][1..] == reste[1..][i-1 := r];
    }
  }

  /** Every step uses up one unit of the work to be done. */
  lemma PasTravail(t: Table, i: nat)
    requires Inv(t) && Possible(t, i)
    ensures Forme(Pas(t, i)) && Total(Pas(t, i).phase, Pas(t, i).reste) == Total(t.phase, t.reste) - 1
  {
    var t' := Pas(t, i);
    assert Prive(t, i);
    TotalMaj(t.phase, t.reste, i, t'.phase[i], t'.reste[i]);
    assert t'.reste == t.reste[i := t'.reste[i]];
  }

  /** A run: who takes each step. */
  predicate Enchaine(ts: seq<Table>, qui: seq<nat>) {
    |ts| == |qui| + 1 &&
    forall k {:trigger qui[k]} :: 0 <= k < |qui| ==> Forme(ts[k]) && Possible(ts[k], qui[k]) && ts[k+1] == Pas(ts[k], qui[k])
  }

  ghost predicate Deroulement(ts: seq<Table>, qui: seq<nat>) {
    Enchaine(ts, qui) && Inv(ts[0])
  }

  /** Every run keeps the invariant, and is no longer than the work there was to do. */
  lemma {:induction false} DeroulementBorne(ts: seq<Table>, qui: seq<nat>, k: nat)
    requires Deroulement(ts, qui) && k <= |qui|
    ensures Inv(ts[k]) && Total(ts[k].phase, ts[k].reste) == Total(ts[0].phase, ts[0].reste) - k
    decreases k
  {
    hide Pas, Inv, Possible;
    if k > 0 {
      DeroulementBorne(ts, qui, k - 1);
      var i := qui[k-1];
      PasInv(ts[k-1], i);
      PasTravail(ts[k-1], i);
    }
  }

  lemma {:induction false} TotalFini(phase: seq<Phase>, reste: seq<nat>)
    requires |phase| == |reste| && forall i :: 0 <= i < |phase| ==> phase[i] == Fini
    ensures Total(phase, reste) == 0
  {
    if phase != [] { TotalFini(phase[1..], reste[1..]); }
  }

  /** By PasDInterblocage a run can be continued until everybody is done; so whatever the
      interleaving, every philosopher eats its fill and stops, and all complete runs from the
      same start have the same length. */
  lemma ToutLeMondeFinit(ts: seq<Table>, qui: seq<nat>)
    requires Deroulement(ts, qui)
    requires Inv(ts[|qui|]) ==> forall i :: 0 <= i < |ts[|qui|].f| ==> !Possible(ts[|qui|], i)
    ensures forall i :: 0 <= i < |ts[|qui|].phase| ==> ts[|qui|].phase[i] == Fini
    ensures |qui| == Total(ts[0].phase, ts[0].reste)
  {
    DeroulementBorne(ts, qui, |qui|);
    var t := ts[|qui|];
    if exists i :: 0 <= i < |t.f| && t.phase[i] != Fini {
      PasDInterblocage(t);
    }
    assert Forme(t);
    assert forall i :: 0 <= i < |t.f| ==> t.phase[i] == Fini;
    TotalFini(t.phase, t.reste);
  }

  lemma {:induction false} TotalDepart(phase: seq<Phase>, reste: seq<nat>, k: nat)
    requires |phase| == |reste| && k >= 1
    requires forall i :: 0 <= i < |phase| ==> phase[i] == Faim && reste[i] == k
    ensures Total(phase, reste) == |phase| * (14 * k + 2)
  {
    if phase == [] {
    } else {
      TotalDepart(phase[1..], reste[1..], k);
      UneFois(|phase|, 14 * k + 2);
    }
  }

  lemma UneFois(n: nat, w: nat)
    requires n > 0
    ensures n * w == (n - 1) * w + w
  {
  }

  /** The whole of test200: n philosophers with k turns each, from the start, whatever the
      scheduler does.  Every run keeps the invariant; one that cannot be continued has left
      everybody finished, with no fork used and no grant pending, after exactly n (14 k + 2)
      steps; a shorter one can be continued. */
  lemma Repas(n: nat, k: nat, ts: seq<Table>, qui: seq<nat>)
    requires n >= 3 && k >= 1
    requires Enchaine(ts, qui) && ts[0] == Depart(n, k)
    ensures Inv(ts[|qui|]) && |qui| <= n * (14 * k + 2)
    ensures (exists i :: 0 <= i < |ts[|qui|].f| && Possible(ts[|qui|], i)) <==> |qui| < n * (14 * k + 2)
    ensures |qui| == n * (14 * k + 2) ==>
      forall i :: 0 <= i < |ts[|qui|].f| ==>
        ts[|qui|].phase[i] == Fini && !ts[|qui|].f[i] && ts[|qui|].s[i] == 0 && !ts[|qui|].bloque[i]
  {
    hide Pas, Inv, Possible;
    DepartInv(n, k);
    DeroulementBorne(ts, qui, |qui|);
    TotalDepart(ts[0].phase, ts[0].reste, k);
    var t := ts[|qui|];
    InvForme(t);
    if i :| 0 <= i < |t.f| && Possible(t, i) {
      PasTravail(t, i);
    } else {
      ToutLeMondeFinit(ts, qui);
      ToutRange(t);
    }
  }

  lemma InvForme(t: Table)
    requires Inv(t)
    ensures Forme(t)
  {
  }

  /** Once everybody is done, everything has been put back. */
  lemma ToutRange(t: Table)
    requires Inv(t) && forall i :: 0 <= i < |t.phase| ==> t.phase[i] == Fini
    ensures forall i :: 0 <= i < |t.f| ==> !t.f[i] && t.s[i] == 0 && !t.bloque[i]
  {
    forall i | 0 <= i < |t.f| ensures !t.f[i] && t.s[i] == 0 && !t.bloque[i] {
      assert Fourchette(t, i) && Prive(t, i);
    }
  }

  // ----- The critical sections as written, on the shared arrays -----------------------------------------

  class Couverts {
    const n: nat
    const f: array<bool>
    const bloque: array<bool>
    const s: array<int>

    ghost predicate Valide() {
      n >= 3 && f.Length == n && bloque.Length == n && s.Length == n && f != bloque
    }

    /** The shared arrays, in place of those of `t`. */
    ghost function Dans(t: Table): Table
      reads f, bloque, s
    {
      t.(f := f[..], bloque := bloque[..], s := s[..])
    }

    constructor (n: nat)
      requires n >= 3
      ensures Valide() && this.n == n && fresh(f) && fresh(bloque) && fresh(s)
      ensures f[..] == seq(n, _ => false) && bloque[..] == seq(n, _ => false) && s[..] == seq(n, _ => 0)
    {
      this.n := n;
      f := new bool[n](_ => false);
      bloque := new bool[n](_ => false);
      s := new int[n](_ => 0);
    }

    method Tester(i: nat) returns (libre: bool)
      requires Valide() && i < n
      ensures libre == (!f[i] && !f[Droite(n, i)])
    {
      Modulo(n, i);
      libre := !f[i] && !f[(i + 1) % n];
    }

    method PrendreFourchettes(i: nat, ghost t: Table)
      requires Valide() && Forme(t) && i < n && Dans(t) == t
      modifies f, bloque, s
      ensures Dans(t) == Prendre(t, i)
    {
      Modulo(n, i);
      var libre := Tester(i);
      if libre {
        f[i] := true;
        f[(i + 1) % n] := true;
        s[i] := s[i] + 1;
      } else {
        bloque[i] := true;
      }
    }

    method PoserFourchettes(i: nat, ghost t: Table)
      requires Valide() && Forme(t) && i < n && Dans(t) == t
      modifies f, bloque, s
      ensures Dans(t) == PoserDroite(PoserGauche(t, i), i)
    {
      Modulo(n, i);
      var g, d := (i + n - 1) % n, (i + 1) % n;
      if bloque[g] && !f[g] {
        f[g] := true;
        bloque[g] := false;
        s[g] := s[g] + 1;
      } else {
        f[i] := false;
      }
      assert Dans(t) == PoserGauche(t, i);
      if bloque[d] && !f[(i + 2) % n] {
        f[(i + 2) % n] := true;
        bloque[d] := false;
        s[d] := s[d] + 1;
      } else {
        f[d] := false;
      }
    }
  }
}
