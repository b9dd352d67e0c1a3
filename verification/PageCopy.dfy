/** Copies between the debugger and the virtual space of the program it debugs
    (kernel/gdb_serial_support.c), page by page, against 32-bit paging byte by byte. */
module PageCopy {

  newtype byte = x: int | 0 <= x < 256

  const TAILLE := 0x1_0000_0000
  const PAGE := 0x1000
  const GRANDE := 0x40_0000

  /** Control registers of the program being debugged. */
  datatype Registres = Registres(cr0: nat, cr3: nat)

  datatype Option = Aucune | Une(a: nat)

  predicate Memoire(m: seq<byte>) {
    |m| == TAILLE
  }

  /** The little-endian word at a multiple of four. */
  function Mot(m: seq<byte>, a: nat): (w: nat)
    requires Memoire(m) && a + 4 <= TAILLE
    ensures w < TAILLE
  {
    m[a] as nat + 0x100 * (m[a+1] as nat) + 0x1_0000 * (m[a+2] as nat) + 0x100_0000 * (m[a+3] as nat)
  }

  predicate Pagination(r: Registres) {
    r.cr0 / 0x8000_0000 % 2 == 1
  }

  predicate Valide(entree: nat) {
    entree % 2 == 1
  }

  predicate Superpage(entree: nat) {
    entree / 0x80 % 2 == 1
  }

  /** An entry with its flag bits masked off. */
  function Cadre(entree: nat): nat {
    entree / PAGE * PAGE
  }

  function AdressePde(r: Registres, v: nat): (a: nat)
    requires v < TAILLE && r.cr3 < TAILLE
    ensures a + 4 <= TAILLE
  {
    Cadre(r.cr3) + 4 * (v / GRANDE)
  }

  function AdressePte(pde: nat, v: nat): (a: nat)
    requires v < TAILLE && pde < TAILLE
    ensures a + 4 <= TAILLE
  {
    Cadre(pde) + 4 * (v / PAGE % 1024)
  }

  /** The byte of a page, small or large, that a word of the tables points to. */
  function DansPage(w: nat, v: nat): (a: nat)
    requires w < TAILLE
    ensures a < TAILLE
  {
    Cadre(w) + v % PAGE
  }

  function DansGrande(w: nat, v: nat): (a: nat)
    requires w < TAILLE
    ensures a < TAILLE
  {
    w / GRANDE * GRANDE + v % GRANDE
  }

  // ----- Translation of one address (32-bit paging) ------------------------------------------------

  function Traduit(m: seq<byte>, r: Registres, v: nat): (t: Option)
    requires Memoire(m) && v < TAILLE && r.cr3 < TAILLE
    ensures t.Une? ==> t.a < TAILLE
  {
    if !Pagination(r) then Une(v)
    else
      var pde := Mot(m, AdressePde(r, v));
      if !Valide(pde) then Aucune
      else if Superpage(pde) then Une(DansGrande(pde, v))
      else
        var pte := Mot(m, AdressePte(pde, v));
        if Valide(pte) then Une(DansPage(pte, v)) else Aucune
  }

  /** The four bytes at `a` are the entry of frame number `cadre`: present or not (bit 0), of a large
      page or not (bit 7), with any other flag bits (1 to 6, and 8 to 11). */
  predicate EntreeEn(m: seq<byte>, a: nat, cadre: nat, present: bool, grande: bool, bas: nat, haut: nat)
    requires Memoire(m) && a + 4 <= TAILLE && cadre < 0x10_0000 && bas < 64 && haut < 16
  {
    && m[a] as nat == (if present then 1 else 0) + 2 * bas + (if grande then 0x80 else 0)
    && m[a+1] as nat == haut + 16 * (cadre % 16)
    && m[a+2] as nat == cadre / 16 % 0x100
    && m[a+3] as nat == cadre / 0x1000
  }

  lemma EntreeLue(m: seq<byte>, a: nat, cadre: nat, present: bool, grande: bool, bas: nat, haut: nat)
    requires Memoire(m) && a + 4 <= TAILLE && cadre < 0x10_0000 && bas < 64 && haut < 16
    requires EntreeEn(m, a, cadre, present, grande, bas, haut)
    ensures Valide(Mot(m, a)) == present && Superpage(Mot(m, a)) == grande
    ensures Cadre(Mot(m, a)) == cadre * PAGE && Mot(m, a) / GRANDE == cadre / 1024
  {
    var reste := (if present then 1 else 0) + 2 * bas + (if grande then 0x80 else 0) + 0x100 * haut;
    assert Mot(m, a) == reste + PAGE * cadre by { Recolle(cadre); }
    Bits(if present then 1 else 0, bas, if grande then 1 else 0, haut, cadre);
  }

  lemma Recolle(cadre: nat)
    requires cadre < 0x10_0000
    ensures 16 * (cadre % 16) * 0x100 + 0x1_0000 * (cadre / 16 % 0x100) + 0x100_0000 * (cadre / 0x1000) == PAGE * cadre
  {
    assert cadre / 16 / 0x100 == cadre / 0x1000;
  }

  lemma Bits(p: nat, bas: nat, g: nat, haut: nat, cadre: nat)
    requires p < 2 && bas < 64 && g < 2 && haut < 16
    ensures var w := p + 2 * bas + 0x80 * g + 0x100 * haut + PAGE * cadre;
      w % 2 == p && w / 0x80 % 2 == g && w / PAGE == cadre && w / GRANDE == cadre / 1024
  {
    var w := p + 2 * bas + 0x80 * g + 0x100 * haut + PAGE * cadre;
    assert w / 0x80 == g + 2 * (haut + 16 * cadre);
    assert w / PAGE / 1024 == w / GRANDE;
  }

  lemma Decoupe(v: nat, dir: nat, tab: nat, off: nat)
    requires dir < 1024 && tab < 1024 && off < PAGE && v == dir * GRANDE + tab * PAGE + off
    ensures v < TAILLE && v / GRANDE == dir && v / PAGE % 1024 == tab && v % PAGE == off && v % GRANDE == tab * PAGE + off
  {
    assert v / PAGE == dir * 1024 + tab;
  }

  /** 32-bit paging as the processor's manual describes it: bits 31-22 of an address choose an entry
      of the directory that cr3 points to; a present entry of a large page gives the top 10 bits of
      the physical address, the other 22 being those of the address.  With paging off (bit 31 of
      cr0) every address stands for itself. */
  lemma TraduitGrande(m: seq<byte>, r: Registres, v: nat, dir: nat, tab: nat, off: nat, racine: nat, bits: nat,
                      cadre: nat, present: bool, grande: bool, bas: nat, haut: nat)
    requires Memoire(m) && dir < 1024 && tab < 1024 && off < PAGE && v == dir * GRANDE + tab * PAGE + off
    requires racine < 0x10_0000 && bits < PAGE && r.cr3 == racine * PAGE + bits && r.cr0 < TAILLE
    requires cadre < 0x10_0000 && bas < 64 && haut < 16
    requires EntreeEn(m, racine * PAGE + 4 * dir, cadre, present, grande, bas, haut)
    ensures r.cr0 < 0x8000_0000 ==> Traduit(m, r, v) == Une(v)
    ensures r.cr0 >= 0x8000_0000 && !present ==> Traduit(m, r, v) == Aucune
    ensures r.cr0 >= 0x8000_0000 && present && grande ==> Traduit(m, r, v) == Une(cadre / 1024 * GRANDE + tab * PAGE + off)
  {
    hide Mot;
    Decoupe(v, dir, tab, off);
    EntreeLue(m, racine * PAGE + 4 * dir, cadre, present, grande, bas, haut);
    assert Cadre(r.cr3) == racine * PAGE;
  }

  /** An entry of no large page points to a table, of which bits 21-12 choose an entry; if that is
      present, it gives the top 20 bits, the other 12 being those of the address. */
  lemma TraduitPetite(m: seq<byte>, r: Registres, v: nat, dir: nat, tab: nat, off: nat, racine: nat, bits: nat,
                      table: nat, bas: nat, haut: nat, cadre: nat, present: bool, grande: bool, bas2: nat, haut2: nat)
    requires Memoire(m) && dir < 1024 && tab < 1024 && off < PAGE && v == dir * GRANDE + tab * PAGE + off
    requires racine < 0x10_0000 && bits < PAGE && r.cr3 == racine * PAGE + bits && 0x8000_0000 <= r.cr0 < TAILLE
    requires table < 0x10_0000 && bas < 64 && haut < 16 && cadre < 0x10_0000 && bas2 < 64 && haut2 < 16
    requires EntreeEn(m, racine * PAGE + 4 * dir, table, true, false, bas, haut)
    requires EntreeEn(m, table * PAGE + 4 * tab, cadre, present, grande, bas2, haut2)
    ensures Traduit(m, r, v) == if present then Une(cadre * PAGE + off) else Aucune
  {
    hide Mot;
    Decoupe(v, dir, tab, off);
    EntreeLue(m, racine * PAGE + 4 * dir, table, true, false, bas, haut);
    EntreeLue(m, table * PAGE + 4 * tab, cadre, present, grande, bas2, haut2);
    assert Cadre(r.cr3) == racine * PAGE;
  }

  // ----- Translation of a stretch of addresses --------------------------------------------------------

  /** phys_addr_lookup: the physical address of `v` and the length of the rest of its page, 0 when
      it is not mapped. */
  function Chercher(m: seq<byte>, r: Registres, v: nat): (p: (nat, nat))
    requires Memoire(m) && v < TAILLE && r.cr3 < TAILLE
  {
    var pde := Mot(m, AdressePde(r, v));
    if !Pagination(r) then (v, TAILLE - 1)
    else if !Valide(pde) then (0, 0)
    else if !Superpage(pde) then
      var pte := Mot(m, AdressePte(pde, v));
      if !Valide(pte) then (0, 0) else (DansPage(pte, v), PAGE - v % PAGE)
    else (DansGrande(pde, v), GRANDE - v % GRANDE)
  }

  lemma MemeGrande(v: nat, k: nat)
    requires k < GRANDE - v % GRANDE
    ensures (v + k) / GRANDE == v / GRANDE && (v + k) % GRANDE == v % GRANDE + k
  {
  }

  lemma MemePetite(v: nat, k: nat)
    requires k < PAGE - v % PAGE
    ensures (v + k) / PAGE == v / PAGE && (v + k) % PAGE == v % PAGE + k && (v + k) / GRANDE == v / GRANDE
  {
  }

  /** What the lookup says of one address holds of every address up to the end of the page. */
  lemma PageEntiere(m: seq<byte>, r: Registres, v: nat, k: nat)
    requires Memoire(m) && v < TAILLE && r.cr3 < TAILLE && v + k < TAILLE
    ensures var (pa, len) := Chercher(m, r, v);
      && (len == 0 <==> Traduit(m, r, v) == Aucune)
      && (k < len ==> Traduit(m, r, v + k) == Une(pa + k))
  {
    var (pa, len) := Chercher(m, r, v);
    if k < len && Pagination(r) {
      if Superpage(Mot(m, AdressePde(r, v))) { MemeGrande(v, k); } else { MemePetite(v, k); }
    }
  }

  /** The translation of byte `i` of the range at `v`. */
  function Ou(m: seq<byte>, r: Registres, v: nat, i: nat): (t: Option)
    requires Memoire(m) && r.cr3 < TAILLE && v + i < TAILLE
    ensures t.Une? ==> t.a < TAILLE
  {
    Traduit(m, r, v + i)
  }

  /** Every byte of the range is mapped. */
  ghost predicate Mappee(m: seq<byte>, r: Registres, v: nat, taille: nat)
    requires Memoire(m) && r.cr3 < TAILLE && v + taille <= TAILLE
  {
    forall i :: 0 <= i < taille ==> Ou(m, r, v, i).Une?
  }

  /** How many bytes at the start of the range are mapped, up to the first that is not. */
  ghost function Mappes(m: seq<byte>, r: Registres, v: nat, taille: nat): (n: nat)
    requires Memoire(m) && r.cr3 < TAILLE && v + taille <= TAILLE
    ensures n <= taille && Mappee(m, r, v, n) && (n < taille ==> !Ou(m, r, v, n).Une?)
    ensures n == taille <==> Mappee(m, r, v, taille)
  {
    if taille == 0 then 0
    else
      var n := Mappes(m, r, v, taille - 1);
      if n == taille - 1 && Ou(m, r, v, n).Une? then taille else n
  }

  /** The contract of `Mappes` leaves no choice. */
  lemma MappesUnique(m: seq<byte>, r: Registres, v: nat, taille: nat, n: nat)
    requires Memoire(m) && r.cr3 < TAILLE && v + taille <= TAILLE
    requires n <= taille && Mappee(m, r, v, n) && (n < taille ==> !Ou(m, r, v, n).Une?)
    ensures n == Mappes(m, r, v, taille)
  {
    hide Ou, Mappee;
    var k := Mappes(m, r, v, taille);
    if n < k { Mappe(m, r, v, k, n); }
    if k < n { Mappe(m, r, v, n, k); }
  }

  lemma Mappe(m: seq<byte>, r: Registres, v: nat, n: nat, i: nat)
    requires Memoire(m) && r.cr3 < TAILLE && v + n <= TAILLE && Mappee(m, r, v, n) && i < n
    ensures Ou(m, r, v, i).Une?
  {
  }

  /** One lookup settles the bytes from `i` up to the end of a page or of the range. */
  lemma UnePage(m: seq<byte>, r: Registres, v: nat, taille: nat, fait: nat, pa: nat, len: nat)
    requires Memoire(m) && r.cr3 < TAILLE && v + taille <= TAILLE && taille < TAILLE && fait < taille
    requires (pa, len) == Chercher(m, r, v + fait)
    ensures len == 0 ==> !Ou(m, r, v, fait).Une?
    ensures var sz := if len > taille - fait then taille - fait else len;
      && (forall i :: fait <= i < fait + sz ==> Ou(m, r, v, i) == Une(pa + (i - fait)))
      && (sz > 0 ==> pa + sz <= TAILLE)
  {
    hide Traduit, Chercher;
    PageEntiere(m, r, v + fait, 0);
    var sz := if len > taille - fait then taille - fait else len;
    forall i | fait <= i < fait + sz ensures Ou(m, r, v, i) == Une(pa + (i - fait)) {
      PageEntiere(m, r, v + fait, i - fait);
      assert v + fait + (i - fait) == v + i;
    }
    if sz > 0 { assert Ou(m, r, v, fait + sz - 1) == Une(pa + (fait + sz - 1 - fait)); }
  }

  // ----- gdb_copyin --------------------------------------------------------------------------------------

  /** The first `n` bytes of `d` are what the bytes of the range are mapped to. */
  ghost predicate Copie(m: seq<byte>, r: Registres, v: nat, n: nat, d: seq<byte>)
    requires Memoire(m) && r.cr3 < TAILLE && v + n <= TAILLE && n <= |d| && Mappee(m, r, v, n)
  {
    forall i :: 0 <= i < n ==> d[i] == m[Ou(m, r, v, i).a]
  }

  /** gdb_copyin, page by page.  It answers 0 exactly when every byte of the source is mapped; in
      any case it has copied what the translation of each address points to, up to the first that
      is not mapped, and left the rest of the destination alone. */
  method Copyin(mem: array<byte>, r: Registres, src: nat, dest: array<byte>, size: nat) returns (code: int)
    requires mem.Length == TAILLE && r.cr3 < TAILLE && mem != dest
    requires src + size <= TAILLE && size < TAILLE && size <= dest.Length
    modifies dest
    ensures code == 0 || code == -1
    ensures code == 0 <==> Mappee(mem[..], r, src, size)
    ensures var n := Mappes(mem[..], r, src, size);
      Copie(mem[..], r, src, n, dest[..]) && dest[n..] == old(dest[n..])
  {
    hide Ou, Chercher, Mappes;
    ghost var m := mem[..];
    var fait := 0;
    while fait < size
      invariant fait <= size && Mappee(m, r, src, fait) && Copie(m, r, src, fait, dest[..])
      invariant forall i :: fait <= i < dest.Length ==> dest[i] == old(dest[i])
      decreases size - fait
    {
      var pa, sz := PhysAddrLookup(mem, r, src + fait);
      UnePage(m, r, src, size, fait, pa, sz);
      if sz == 0 {
        MappesUnique(m, r, src, size, fait);
        return -1;
      }
      if sz > size - fait {
        sz := size - fait;
      }
      Memcpy(dest, fait, mem, pa, sz);
      fait := fait + sz;
    }
    MappesUnique(m, r, src, size, fait);
    return 0;
  }

  method PhysAddrLookup(mem: array<byte>, r: Registres, vaddr: nat) returns (paddr: nat, len: nat)
    requires mem.Length == TAILLE && r.cr3 < TAILLE && vaddr < TAILLE
    ensures (paddr, len) == Chercher(mem[..], r, vaddr)
  {
    var pde := LireMot(mem, AdressePde(r, vaddr));
    if !Pagination(r) {
      return vaddr, TAILLE - 1;
    }
    if !Valide(pde) {
      return 0, 0;
    }
    if !Superpage(pde) {
      var pte := LireMot(mem, AdressePte(pde, vaddr));
      if !Valide(pte) {
        return 0, 0;
      }
      return DansPage(pte, vaddr), PAGE - vaddr % PAGE;
    }
    return DansGrande(pde, vaddr), GRANDE - vaddr % GRANDE;
  }

  method LireMot(mem: array<byte>, a: nat) returns (w: nat)
    requires mem.Length == TAILLE && a + 4 <= TAILLE
    ensures w == Mot(mem[..], a)
  {
    w := mem[a] as nat + 0x100 * (mem[a+1] as nat) + 0x1_0000 * (mem[a+2] as nat) + 0x100_0000 * (mem[a+3] as nat);
  }

  method Memcpy(dest: array<byte>, d: nat, src: array<byte>, s: nat, n: nat)
    requires dest != src && d + n <= dest.Length && s + n <= src.Length
    modifies dest
    ensures forall i :: 0 <= i < dest.Length ==> dest[i] == if d <= i < d + n then src[s + (i - d)] else old(dest[i])
  {
    var k := 0;
    while k < n
      invariant k <= n
      invariant forall i :: 0 <= i < dest.Length ==> dest[i] == if d <= i < d + k then src[s + (i - d)] else old(dest[i])
    {
      dest[d+k] := src[s+k];
      k := k + 1;
    }
  }

  // ----- gdb_copyout ---------------------------------------------------------------------------------------

  /** The translation of byte `j` of the range does not look at the byte at physical address `a`. */
  ghost predicate Ignore(m: seq<byte>, r: Registres, v: nat, j: nat, a: nat)
    requires Memoire(m) && v + j < TAILLE && r.cr3 < TAILLE
  {
    var p := AdressePde(r, v + j);
    && !(p <= a < p + 4)
    && (Valide(Mot(m, p)) && !Superpage(Mot(m, p)) ==>
         var q := AdressePte(Mot(m, p), v + j);
         !(q <= a < q + 4))
  }

  /** No byte the range is mapped to is part of the page tables that map it. */
  ghost predicate HorsTables(m: seq<byte>, r: Registres, v: nat, taille: nat)
    requires Memoire(m) && r.cr3 < TAILLE && v + taille <= TAILLE
  {
    Pagination(r) ==>
      forall i, j :: 0 <= i < taille && 0 <= j < taille && Ou(m, r, v, i).Une? ==> Ignore(m, r, v, j, Ou(m, r, v, i).a)
  }

  /** The first `n` bytes of the range have been written: every byte of memory that changed is
      one they are mapped to. */
  ghost predicate EcritDans(m: seq<byte>, m': seq<byte>, r: Registres, v: nat, n: nat)
    requires Memoire(m) && Memoire(m') && r.cr3 < TAILLE && v + n <= TAILLE
  {
    forall a :: 0 <= a < TAILLE && m'[a] != m[a] ==> exists i :: 0 <= i < n && Ou(m, r, v, i) == Une(a)
  }

  lemma Ignores(m: seq<byte>, m': seq<byte>, r: Registres, v: nat, taille: nat, n: nat, j: nat, a: nat)
    requires Memoire(m) && Memoire(m') && r.cr3 < TAILLE && v + taille <= TAILLE && n <= taille && j < taille
    requires Pagination(r) && HorsTables(m, r, v, taille) && EcritDans(m, m', r, v, n)
    requires a < TAILLE && m'[a] != m[a]
    ensures Ignore(m, r, v, j, a)
  {
    hide Ou, Mot, Ignore;
    var i :| 0 <= i < n && Ou(m, r, v, i) == Une(a);
    assert Ignore(m, r, v, j, Ou(m, r, v, i).a);
  }

  lemma MotStable(m: seq<byte>, m': seq<byte>, r: Registres, v: nat, taille: nat, n: nat, j: nat, p: nat)
    requires Memoire(m) && Memoire(m') && r.cr3 < TAILLE && v + taille <= TAILLE && n <= taille && j < taille && p + 4 <= TAILLE
    requires Pagination(r) && HorsTables(m, r, v, taille) && EcritDans(m, m', r, v, n)
    requires forall a: nat :: Ignore(m, r, v, j, a) ==> !(p <= a < p + 4)
    ensures Mot(m', p) == Mot(m, p)
  {
    hide Ou, Mot, Ignore;
    forall a | p <= a < p + 4 ensures m'[a] == m[a] {
      if m'[a] != m[a] { Ignores(m, m', r, v, taille, n, j, a); }
    }
    MotsEgaux(m, m', p);
  }

  lemma MotsEgaux(m: seq<byte>, m': seq<byte>, p: nat)
    requires Memoire(m) && Memoire(m') && p + 4 <= TAILLE && forall a :: p <= a < p + 4 ==> m'[a] == m[a]
    ensures Mot(m', p) == Mot(m, p)
  {
    assert m'[p] == m[p] && m'[p+1] == m[p+1] && m'[p+2] == m[p+2] && m'[p+3] == m[p+3];
  }

  /** Writing through the mapping of a range does not change the mapping of the range. */
  lemma MappageStable(m: seq<byte>, m': seq<byte>, r: Registres, v: nat, taille: nat, n: nat, j: nat)
    requires Memoire(m) && Memoire(m') && r.cr3 < TAILLE && v + taille <= TAILLE && n <= taille && j < taille
    requires HorsTables(m, r, v, taille) && EcritDans(m, m', r, v, n)
    ensures Chercher(m', r, v + j) == Chercher(m, r, v + j)
  {
    hide Mot, Ou;
    if Pagination(r) {
      var p := AdressePde(r, v + j);
      MotStable(m, m', r, v, taille, n, j, p);
      var pde := Mot(m, p);
      if Valide(pde) && !Superpage(pde) {
        MotStable(m, m', r, v, taille, n, j, AdressePte(pde, v + j));
      }
    }
  }

  /** No later byte of the first `n` of the range is mapped where byte `i` is. */
  ghost predicate Derniere(m: seq<byte>, r: Registres, v: nat, n: nat, i: nat)
    requires Memoire(m) && r.cr3 < TAILLE && v + n <= TAILLE && i < n
  {
    Ou(m, r, v, i).Une? && forall j :: i < j < n ==> Ou(m, r, v, j) != Ou(m, r, v, i)
  }

  /** The last byte sent to each address is there. */
  ghost predicate Deposes(m: seq<byte>, m': seq<byte>, r: Registres, v: nat, n: nat, s: seq<byte>)
    requires Memoire(m) && Memoire(m') && r.cr3 < TAILLE && v + n <= TAILLE && n <= |s|
  {
    forall i :: 0 <= i < n && Derniere(m, r, v, n, i) ==> m'[Ou(m, r, v, i).a] == s[i]
  }

  /** gdb_copyout, when the destination does not overlap the page tables that map it: it answers 0
      exactly when every byte of the destination is mapped; in any case each byte of memory then
      holds the last byte of the source, of those before the first address that is not mapped,
      whose address is mapped to it, or what it held before. */
  method Copyout(src: array<byte>, mem: array<byte>, r: Registres, dest: nat, size: nat) returns (code: int)
    requires mem.Length == TAILLE && r.cr3 < TAILLE && mem != src
    requires dest + size <= TAILLE && size < TAILLE && size <= src.Length
    requires HorsTables(mem[..], r, dest, size)
    modifies mem
    ensures code == 0 || code == -1
    ensures code == 0 <==> Mappee(old(mem[..]), r, dest, size)
    ensures var n := Mappes(old(mem[..]), r, dest, size);
      EcritDans(old(mem[..]), mem[..], r, dest, n) && Deposes(old(mem[..]), mem[..], r, dest, n, src[..])
  {
    hide Ou, Chercher, HorsTables, EcritDans, Deposes, Mappes;
    ghost var m := mem[..];
    Debut(m, r, dest, src[..]);
    var fait := 0;
    while fait < size
      invariant fait <= size && Mappee(m, r, dest, fait)
      invariant EcritDans(m, mem[..], r, dest, fait) && Deposes(m, mem[..], r, dest, fait, src[..])
      decreases size - fait
    {
      ghost var m1 := mem[..];
      var pa, sz := PhysAddrLookup(mem, r, dest + fait);
      MappageStable(m, m1, r, dest, size, fait, fait);
      UnePage(m, r, dest, size, fait, pa, sz);
      if sz == 0 {
        MappesUnique(m, r, dest, size, fait);
        return -1;
      }
      if sz > size - fait {
        sz := size - fait;
      }
      Memcpy(mem, pa, src, fait, sz);
      UnePageDePlus(m, m1, mem[..], r, dest, fait, pa, sz, src[..]);
      fait := fait + sz;
    }
    MappesUnique(m, r, dest, size, fait);
    return 0;
  }

  lemma Debut(m: seq<byte>, r: Registres, v: nat, s: seq<byte>)
    requires Memoire(m) && r.cr3 < TAILLE && v <= TAILLE
    ensures EcritDans(m, m, r, v, 0) && Deposes(m, m, r, v, 0, s)
  {
  }

  lemma UnePageDePlus(m: seq<byte>, m1: seq<byte>, m2: seq<byte>, r: Registres, v: nat, fait: nat, pa: nat, sz: nat, src: seq<byte>)
    requires Memoire(m) && Memoire(m1) && Memoire(m2) && r.cr3 < TAILLE && v + fait + sz <= TAILLE && pa + sz <= TAILLE
    requires fait + sz <= |src|
    requires EcritDans(m, m1, r, v, fait) && Deposes(m, m1, r, v, fait, src)
    requires forall i :: fait <= i < fait + sz ==> Ou(m, r, v, i) == Une(pa + (i - fait))
    requires forall a :: 0 <= a < TAILLE ==> m2[a] == if pa <= a < pa + sz then src[fait + (a - pa)] else m1[a]
    ensures EcritDans(m, m2, r, v, fait + sz) && Deposes(m, m2, r, v, fait + sz, src)
  {
    hide Ou, EcritDans, Deposes;
    PageEcrite(m, m1, m2, r, v, fait, pa, sz, src);
    PageDeposee(m, m1, m2, r, v, fait, pa, sz, src);
  }

  lemma PageEcrite(m: seq<byte>, m1: seq<byte>, m2: seq<byte>, r: Registres, v: nat, fait: nat, pa: nat, sz: nat, src: seq<byte>)
    requires Memoire(m) && Memoire(m1) && Memoire(m2) && r.cr3 < TAILLE && v + fait + sz <= TAILLE && pa + sz <= TAILLE
    requires fait + sz <= |src|
    requires EcritDans(m, m1, r, v, fait)
    requires forall i :: fait <= i < fait + sz ==> Ou(m, r, v, i) == Une(pa + (i - fait))
    requires forall a :: 0 <= a < TAILLE ==> m2[a] == if pa <= a < pa + sz then src[fait + (a - pa)] else m1[a]
    ensures EcritDans(m, m2, r, v, fait + sz)
  {
    hide Ou;
    forall a | 0 <= a < TAILLE && m2[a] != m[a] ensures exists i :: 0 <= i < fait + sz && Ou(m, r, v, i) == Une(a) {
      if pa <= a < pa + sz {
        assert Ou(m, r, v, fait + (a - pa)) == Une(a);
      } else {
        var i :| 0 <= i < fait && Ou(m, r, v, i) == Une(a);
      }
    }
  }

  lemma PageDeposee(m: seq<byte>, m1: seq<byte>, m2: seq<byte>, r: Registres, v: nat, fait: nat, pa: nat, sz: nat, src: seq<byte>)
    requires Memoire(m) && Memoire(m1) && Memoire(m2) && r.cr3 < TAILLE && v + fait + sz <= TAILLE && pa + sz <= TAILLE
    requires fait + sz <= |src|
    requires Deposes(m, m1, r, v, fait, src)
    requires forall i :: fait <= i < fait + sz ==> Ou(m, r, v, i) == Une(pa + (i - fait))
    requires forall a :: 0 <= a < TAILLE ==> m2[a] == if pa <= a < pa + sz then src[fait + (a - pa)] else m1[a]
    ensures Deposes(m, m2, r, v, fait + sz, src)
  {
    hide Ou;
    forall i | 0 <= i < fait + sz && Derniere(m, r, v, fait + sz, i) ensures m2[Ou(m, r, v, i).a] == src[i] {
      var a := Ou(m, r, v, i).a;
      if i < fait {
        assert Derniere(m, r, v, fait, i);
        PasEcrase(m, r, v, fait, pa, sz, i, a);
      }
    }
  }

  lemma PasEcrase(m: seq<byte>, r: Registres, v: nat, fait: nat, pa: nat, sz: nat, i: nat, a: nat)
    requires Memoire(m) && r.cr3 < TAILLE && v + fait + sz <= TAILLE && i < fait
    requires forall i :: fait <= i < fait + sz ==> Ou(m, r, v, i) == Une(pa + (i - fait))
    requires Derniere(m, r, v, fait + sz, i) && a == Ou(m, r, v, i).a
    ensures !(pa <= a < pa + sz)
  {
    hide Ou;
    if pa <= a < pa + sz { Present(m, r, v, fait, pa, sz, a); }
  }

  lemma Present(m: seq<byte>, r: Registres, v: nat, fait: nat, pa: nat, sz: nat, a: nat)
    requires Memoire(m) && r.cr3 < TAILLE && v + fait + sz <= TAILLE && pa <= a < pa + sz
    requires forall i :: fait <= i < fait + sz ==> Ou(m, r, v, i) == Une(pa + (i - fait))
    ensures exists j :: fait <= j < fait + sz && Ou(m, r, v, j) == Une(a)
  {
    hide Ou;
    assert Ou(m, r, v, fait + (a - pa)) == Une(a);
  }
}
