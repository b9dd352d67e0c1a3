/** The defensive wrapper at the end of shared/malloc.c.h: every zone lies between guard words
    that mem_free checks.  The zones sit in blocks of the heap, so that the guards of one cannot
    be reached from another. */
module MemAlloc {
  import opened MallocBins
  import opened HeapBlocks
  import opened HeapFit
  import opened Malloc

  const AVANT := 0xa51234ab
  const APRES := 0xdeadfedc

  /** The zone in words, guards included, as the 32-bit expression computes it. */
  function Longueur(length: nat): nat {
    (length + 3) % MOT / 4 + 4
  }

  function Octets(length: nat): nat {
    Longueur(length) * 4 % MOT
  }

  /** The overflow test of mem_alloc refuses exactly the lengths whose guarded size does not fit
      in 32 bits; for the others the sizes are the true ones. */
  lemma LongueurJuste(length: nat)
    requires length < MOT
    ensures Octets(length) <= length <==> length > MOT - 20
    ensures length <= MOT - 20 ==>
      && Octets(length) == 4 * Longueur(length) == (length + 3) / 4 * 4 + 16 && length + 16 <= Octets(length) < MOT
  {
    if length + 3 < MOT {
      var m := (length + 3) / 4;
      assert 4 * m <= length + 3 < 4 * m + 4;
      assert Longueur(length) == m + 4;
      if 4 * m + 16 < MOT {
        assert Octets(length) == 4 * m + 16;
      } else {
        assert Octets(length) == 4 * m + 16 - MOT;
      }
    } else {
      assert (length + 3) % MOT == length + 3 - MOT;
    }
  }

  /** The words of a zone of that length, guards included. */
  predicate Mot(z: int, length: nat, x: int) {
    z - 8 <= x < z - 8 + 4 * Longueur(length)
  }

  /** The four guard words are as mem_alloc wrote them. */
  predicate Gardes(mots: map<int, int>, z: int, length: nat) {
    var p, l := z - 8, Longueur(length);
    && p in mots && mots[p] == length
    && p + 4 in mots && mots[p + 4] == AVANT
    && p + 4 * (l - 2) in mots && mots[p + 4 * (l - 2)] == APRES
    && p + 4 * (l - 1) in mots && mots[p + 4 * (l - 1)] == p
  }

  lemma GardesCadre(m0: map<int, int>, m1: map<int, int>, z: int, n: nat)
    requires Gardes(m0, z, n) && Longueur(n) >= 4
    requires forall x :: x in m0 && Mot(z, n, x) ==> x in m1 && m1[x] == m0[x]
    ensures Gardes(m1, z, n)
  {
    var p, l := z - 8, Longueur(n);
    assert Mot(z, n, p) && Mot(z, n, p + 4) && Mot(z, n, p + 4 * (l - 2)) && Mot(z, n, p + 4 * (l - 1));
  }

  lemma GardesPosees(m: map<int, int>, z: int, n: nat)
    requires var p, l := z - 8, Longueur(n);
      && p in m && m[p] == n && p + 4 in m && m[p + 4] == AVANT
      && p + 4 * (l - 2) in m && m[p + 4 * (l - 2)] == APRES && p + 4 * (l - 1) in m && m[p + 4 * (l - 1)] == p
    ensures Gardes(m, z, n)
  {
  }

  lemma GardesHors(m: map<int, int>, z: int, n: nat, k: nat, valeur: int)
    requires Gardes(m, z, n) && k < Longueur(n) - 4
    ensures Gardes(m[z + 4 * k := valeur], z, n)
  {
    hide Longueur;
    var l := Longueur(n);
    assert z - 8 + 4 * (l - 2) != z + 4 * k && z - 8 + 4 * (l - 1) != z + 4 * k;
  }

  lemma Longue(n: nat)
    ensures Longueur(n) >= 4
  {
  }

  class Memoire {
    const tas: Allocateur
    /** The words of clients and guards, by address. */
    var mots: map<int, int>
    /** The zones not yet given back, with their lengths. */
    ghost var zones: map<int, nat>

    /** The zone has a block of the heap to itself. */
    ghost predicate Bornes(z: int, length: int)
      reads tas
    {
      && 0 < length <= MOT - 20
      && z - 16 in Vivants(tas.a) && Vivants(tas.a)[z - 16] >= 4 * Longueur(length) + 4
    }

    ghost predicate Valid()
      reads this, tas
    {
      && tas.Valid()
      && forall z {:trigger zones[z]} :: z in zones ==> Bornes(z, zones[z]) && Gardes(mots, z, zones[z])
    }

    /** Zones do not share words. */
    lemma ZonesDisjointes(z: int, n: nat, y: int, m: nat)
      requires tas.Valid() && Bornes(z, n) && Bornes(y, m) && z != y
      ensures forall x :: !(Mot(z, n, x) && Mot(y, m, x))
    {
      EstVivant(tas.a, z - 16);
      EstVivant(tas.a, y - 16);
      forall x | Mot(z, n, x) ensures !Mot(y, m, x) {
        assert Charge(tas.a, z - 16, x);
        ChargeAPart(tas.a, tas.base, tas.top, z - 16, x);
        assert !Charge(tas.a, y - 16, x);
      }
    }

    constructor (tas: Allocateur)
      requires tas.Valid()
      ensures Valid() && zones == map[] && this.tas == tas
    {
      this.tas := tas;
      mots, zones := map[], map[];
    }

    /** memset, by words. */
    method Zero(p: int, n: nat)
      modifies `mots
      ensures forall k :: 0 <= k < n ==> p + 4 * k in mots && mots[p + 4 * k] == 0
      ensures forall x :: x in old(mots) && !(p <= x < p + 4 * n) ==> x in mots && mots[x] == old(mots)[x]
    {
      var i := 0;
      while i < n
        invariant 0 <= i <= n
        invariant forall k :: 0 <= k < i ==> p + 4 * k in mots && mots[p + 4 * k] == 0
        invariant forall x :: x in old(mots) && !(p <= x < p + 4 * n) ==> x in mots && mots[x] == old(mots)[x]
      {
        mots := mots[p + 4 * i := 0];
        i := i + 1;
      }
    }

    /** The four guard words and the zeros between them. */
    method Garnir(p: int, length: nat)
      requires Longueur(length) > 4
      modifies `mots
      ensures Gardes(mots, p + 8, length)
      ensures forall k :: 0 <= k < Longueur(length) - 4 ==> p + 8 + 4 * k in mots && mots[p + 8 + 4 * k] == 0
      ensures forall x :: x in old(mots) && !Mot(p + 8, length, x) ==> x in mots && mots[x] == old(mots)[x]
    {
      hide Longueur, Gardes;
      var l := Longueur(length);
      mots := mots[p := length];
      mots := mots[p + 4 := AVANT];
      mots := mots[p + 4 * (l - 2) := APRES];
      mots := mots[p + 4 * (l - 1) := p];
      Zero(p + 8, l - 4);
      GardesPosees(mots, p + 8, length);
    }

    /** mem_alloc */
    method Alloc(length: nat) returns (zone: int)
      requires Valid() && length < MOT
      modifies this, tas
      ensures Valid()
      ensures zone == 0 ==> zones == old(zones) && mots == old(mots)
      ensures zone == 0 ==> length == 0 || length > MOT - 20 || Octets(length) >= MOT - 2 * MINSIZE
                            || tas.Epuise(Request2Size(Octets(length)))
      ensures length == 0 || length > MOT - 20 ==> zone == 0
      ensures zone != 0 ==> zone !in old(zones) && zone % 8 == 0 && zones == old(zones)[zone := length]
      ensures zone != 0 ==>
        forall k :: 0 <= k < Longueur(length) - 4 ==> zone + 4 * k in mots && mots[zone + 4 * k] == 0
      ensures zone != 0 ==> forall x :: x in old(mots) && !Mot(zone, length, x) ==> x in mots && mots[x] == old(mots)[x]
      ensures zone != 0 ==>
        forall y, x :: y in old(zones) && Mot(y, old(zones)[y], x) ==> !Mot(zone, length, x)
    {
      hide Request2Size, Longueur, Octets, Gardes, Vivants, Allocateur.Valid, Allocateur.Epuise, MeilleurChoix, Mot, Accorde;
      var l2 := Octets(length);
      LongueurJuste(length);
      if length == 0 {
        return 0;
      }
      if l2 <= length {
        return 0;
      }
      ghost var v := Vivants(tas.a);
      var p := tas.Malloc(l2);
      if p == 0 {
        return 0;
      }
      AssezPourTout(v, p, length);
      zone := p + 8;
      Garnir(p, length);
      AutresZones(zones, old(mots), v, zone, length);
      zones := zones[zone := length];
    }

    /** The zones that were there before keep their blocks and their guards. */
    lemma AutresZones(zs: map<int, nat>, m0: map<int, int>, v: map<int, int>, zone: int, length: nat)
      requires tas.Valid() && Bornes(zone, length)
      requires zone - 16 !in v && Vivants(tas.a) == v[zone - 16 := Vivants(tas.a)[zone - 16]]
      requires forall y {:trigger zs[y]} :: y in zs ==>
        && 0 < zs[y] <= MOT - 20 && y - 16 in v && v[y - 16] >= 4 * Longueur(zs[y]) + 4 && Gardes(m0, y, zs[y])
      requires forall x :: x in m0 && !Mot(zone, length, x) ==> x in mots && mots[x] == m0[x]
      ensures zone !in zs
      ensures forall y {:trigger zs[y]} :: y in zs ==> Bornes(y, zs[y]) && Gardes(mots, y, zs[y])
      ensures forall y, x :: y in zs && Mot(y, zs[y], x) ==> !Mot(zone, length, x)
    {
      hide Longueur, Gardes, Vivants, Allocateur.Valid, Mot;
      forall y | y in zs ensures y != zone {
        assert zs[y] > 0;
      }
      forall y {:trigger zs[y]} | y in zs
        ensures Bornes(y, zs[y]) && Gardes(mots, y, zs[y]) && forall x :: !(Mot(zone, length, x) && Mot(y, zs[y], x))
      {
        ZonesDisjointes(zone, length, y, zs[y]);
        Longue(zs[y]);
        GardesCadre(m0, mots, y, zs[y]);
      }
    }

    /** A client writes word k of its own zone: no guard notices. */
    method Ecrire(zone: int, length: nat, k: nat, valeur: int)
      requires Valid() && zone in zones && zones[zone] == length && k < Longueur(length) - 4
      modifies `mots
      ensures Valid() && mots == old(mots)[zone + 4 * k := valeur]
    {
      hide Gardes, Vivants, Allocateur.Valid;
      ghost var m0 := mots;
      mots := mots[zone + 4 * k := valeur];
      forall y {:trigger zones[y]} | y in zones ensures Gardes(mots, y, zones[y]) {
        Longue(zones[y]);
        if y == zone {
          GardesHors(m0, zone, length, k, valeur);
        } else {
          ZonesDisjointes(zone, length, y, zones[y]);
          assert Mot(zone, length, zone + 4 * k);
          GardesCadre(m0, mots, y, zones[y]);
        }
      }
    }

    /** mem_free, with the block address and the length the client claims.  bug says that one of
        the four tests failed, and then nothing else happens; a length of 0 makes the call return
        at once. */
    method Free(zone: int, length: nat) returns (bug: bool)
      requires Valid() && zone in zones && length < MOT
      modifies this, tas
      ensures Valid()
      ensures bug <==> length != 0 && length != old(zones)[zone]
      ensures bug || length == 0 ==> zones == old(zones) && mots == old(mots)
      ensures !bug && length != 0 ==> zones == old(zones) - {zone}
      ensures !bug && length != 0 ==>
        forall x :: x in old(mots) && !Mot(zone, length, x) ==> x in mots && mots[x] == old(mots)[x]
      ensures !bug && length != 0 ==> Vivants(tas.a) == old(Vivants(tas.a)) - {zone - 16}
    {
      hide Vivants, Longueur;
      if length == 0 {
        return false;
      }
      var p := zone - 8;
      var l := Longueur(length);
      assert Bornes(zone, zones[zone]) && Gardes(mots, zone, zones[zone]);
      if mots[p + 4] != AVANT {
        return true;
      }
      if mots[p] != length {
        return true;
      }
      if mots[p + 4 * (l - 2)] != APRES {
        return true;
      }
      if mots[p + 4 * (l - 1)] != p {
        return true;
      }
      ghost var m0, v := mots, Vivants(tas.a);
      Zero(p, l);
      SansElle(m0, zone, length);
      BlocPositif(zone - 16);
      tas.Free(p);
      zones := zones - {zone};
      return false;
    }
    lemma BlocPositif(p: int)
      requires tas.Valid() && p in Vivants(tas.a)
      ensures p > 0
    {
      EstVivant(tas.a, p);
      PasTop(tas.a, tas.base, tas.top, p);
    }

    lemma SansElle(m0: map<int, int>, zone: int, length: nat)
      requires tas.Valid() && zone in zones && zones[zone] == length
      requires forall z {:trigger zones[z]} :: z in zones ==> Bornes(z, zones[z]) && Gardes(m0, z, zones[z])
      requires forall x :: x in m0 && !Mot(zone, length, x) ==> x in mots && mots[x] == m0[x]
      ensures forall y {:trigger zones[y]} :: y in zones && y != zone ==> Gardes(mots, y, zones[y])
    {
      hide Gardes, Vivants, Allocateur.Valid, Mot, Longueur;
      forall y {:trigger zones[y]} | y in zones && y != zone ensures Gardes(mots, y, zones[y]) {
        assert Bornes(zone, zones[zone]) && Bornes(y, zones[y]);
        ZonesDisjointes(zone, length, y, zones[y]);
        Longue(zones[y]);
        GardesCadre(m0, mots, y, zones[y]);
      }
    }

    lemma AssezPourTout(v: map<int, int>, p: int, length: nat)
      requires 0 < length <= MOT - 20 && Octets(length) < MOT - 2 * MINSIZE
      requires Accorde(tas.a, v, p - 8, Request2Size(Octets(length)))
      ensures Bornes(p + 8, length) && p > 8 && p % 8 == 0 && Longueur(length) > 4
      ensures p - 8 !in v && Vivants(tas.a) == v[p - 8 := Vivants(tas.a)[p - 8]]
    {
      LongueurJuste(length);
    }
  }
}
