/** The mood-log hook (app/hooks/useRegistrosHumor.ts): flattening the
    embedded factor rows, the local removal, and the statistics of
    `obterEstatisticas` — mean, best and worst day, the per-factor tally
    and the split into positive and negative factors. */
module RegistrosHumor {
  import opened Wrappers
  import opened Seqs
  import opened Tipos

  // ---------------------------------------------------------------------
  // Flattening the reply

  /** `{ ...item, fatores: item.fatores_humor?.map(f => f.fator) || [] }`. */
  function Processar(l: RegistroHumorLinha): (r: RegistroHumor)
    ensures r.linha == l
    ensures l.fatoresHumor.None? ==> r.fatores == []
    ensures l.fatoresHumor.Some? ==>
      |r.fatores| == |l.fatoresHumor.value| &&
      forall i :: 0 <= i < |r.fatores| ==> r.fatores[i] == l.fatoresHumor.value[i].fator
  {
    match l.fatoresHumor
    case None => RegistroHumor(l, [])
    case Some(fs) => RegistroHumor(l, seq(|fs|, i requires 0 <= i < |fs| => fs[i].fator))
  }

  /** `data.map(...)`: one processed record per row, in the same order. */
  function Processados(ls: seq<RegistroHumorLinha>): (r: seq<RegistroHumor>)
    ensures |r| == |ls|
    ensures forall i :: 0 <= i < |ls| ==> r[i] == Processar(ls[i])
  {
    seq(|ls|, i requires 0 <= i < |ls| => Processar(ls[i]))
  }

  // ---------------------------------------------------------------------
  // The per-factor tally

  /** One occurrence of a factor in a record: the factor and that record's level. */
  datatype Ocorrencia = Ocorrencia(fator: string, nivel: int)

  /** An entry of `fatorContagem`. */
  datatype Contagem = Contagem(soma: int, count: int)

  /** The occurrences contributed by one record, in the order of its factors. */
  function OcorrenciasDe(r: RegistroHumor): seq<Ocorrencia> {
    seq(|r.fatores|, i requires 0 <= i < |r.fatores| => Ocorrencia(r.fatores[i], r.linha.nivel))
  }

  /** Every occurrence of every record, visited as the nested `forEach` does. */
  function Ocorrencias(regs: seq<RegistroHumor>): seq<Ocorrencia> {
    if regs == [] then []
    else Ocorrencias(regs[..|regs| - 1]) + OcorrenciasDe(regs[|regs| - 1])
  }

  lemma OcorrenciasSnoc(regs: seq<RegistroHumor>, r: RegistroHumor)
    ensures Ocorrencias(regs + [r]) == Ocorrencias(regs) + OcorrenciasDe(r)
  {
    assert (regs + [r])[..|regs|] == regs;
  }

  /** What `fatorContagem` holds after the occurrences `s` were visited in
      order: a missing factor starts at `{ soma: 0, count: 0 }`, then its
      record's level is added and its count bumped. */
  function Contar(s: seq<Ocorrencia>): map<string, Contagem> {
    if s == [] then map[] else Somar(Contar(s[..|s| - 1]), s[|s| - 1])
  }

  /** Adding one occurrence to the tally, as the loop body does it: an
      absent key is first created at `{ soma: 0, count: 0 }`, then the
      level is added and the count bumped. */
  function Somar(t: map<string, Contagem>, o: Ocorrencia): map<string, Contagem> {
    var t1 := if o.fator !in t then t[o.fator := Contagem(0, 0)] else t;
    t1[o.fator := Contagem(t1[o.fator].soma + o.nivel, t1[o.fator].count + 1)]
  }

  /** The keys of `fatorContagem` in insertion order, which is the order
      `Object.entries` lists them in. */
  function Chaves(s: seq<Ocorrencia>): seq<string> {
    if s == [] then []
    else
      var k := Chaves(s[..|s| - 1]);
      var f := s[|s| - 1].fator;
      if f in k then k else k + [f]
  }

  lemma ContarSnoc(s: seq<Ocorrencia>, o: Ocorrencia)
    ensures Contar(s + [o]) == Somar(Contar(s), o)
    ensures Chaves(s + [o]) == if o.fator in Chaves(s) then Chaves(s) else Chaves(s) + [o.fator]
  {
    assert (s + [o])[..|s|] == s;
  }

  /** One step of the inner loop, in the terms the loop tests: whether the
      factor already has an entry. */
  lemma PassoContagem(s: seq<Ocorrencia>, o: Ocorrencia)
    ensures o.fator in Contar(s) <==> o.fator in Chaves(s)
    ensures Contar(s + [o]) == Somar(Contar(s), o)
    ensures Chaves(s + [o]) == if o.fator in Contar(s) then Chaves(s) else Chaves(s) + [o.fator]
  {
    ContarSnoc(s, o);
    ContarFator(s, o.fator);
  }

  /** The occurrences of one factor. */
  function DoFator(s: seq<Ocorrencia>, f: string): seq<Ocorrencia> {
    Filter(s, (o: Ocorrencia) => o.fator == f)
  }

  /** The sum of the levels of a list of occurrences. */
  function SomaDe(s: seq<Ocorrencia>): int {
    if s == [] then 0 else s[0].nivel + SomaDe(s[1..])
  }

  lemma {:induction false} SomaDeConcat(a: seq<Ocorrencia>, b: seq<Ocorrencia>)
    ensures SomaDe(a + b) == SomaDe(a) + SomaDe(b)
  {
    if a == [] {
      assert a + b == b;
    } else {
      assert (a + b)[1..] == a[1..] + b;
      SomaDeConcat(a[1..], b);
    }
  }

  /** The tally is right for one factor `f`: it has an entry exactly when it
      occurs, and then its `count` is the number of its occurrences across
      all records and its `soma` the sum of the levels of the records it
      occurs in (once per occurrence). */
  lemma {:induction false} ContarFator(s: seq<Ocorrencia>, f: string)
    ensures f in Contar(s) <==> f in Chaves(s)
    ensures f in Contar(s) <==> |DoFator(s, f)| > 0
    ensures f in Contar(s) ==> Contar(s)[f] == Contagem(SomaDe(DoFator(s, f)), |DoFator(s, f)|)
  {
    if s != [] {
      var s' := s[..|s| - 1];
      var o := s[|s| - 1];
      assert s == s' + [o];
      ContarFator(s', f);
      ContarSnoc(s', o);
      FilterConcat(s', [o], (o: Ocorrencia) => o.fator == f);
      assert DoFator(s, f) == DoFator(s', f) + (if o.fator == f then [o] else []);
      SomaDeConcat(DoFator(s', f), if o.fator == f then [o] else []);
    }
  }

  /** Each key is listed once. */
  lemma {:induction false} ChavesSemRepeticao(s: seq<Ocorrencia>)
    ensures NoDup(Chaves(s))
  {
    if s != [] {
      var s' := s[..|s| - 1];
      var o := s[|s| - 1];
      assert s == s' + [o];
      ChavesSemRepeticao(s');
      ContarSnoc(s', o);
    }
  }

  /** The whole tally at once; every entry has a positive `count`. */
  lemma ContarCorreto(s: seq<Ocorrencia>)
    ensures forall f :: f in Contar(s) <==> f in Chaves(s)
    ensures forall f :: f in Contar(s) ==>
      Contar(s)[f] == Contagem(SomaDe(DoFator(s, f)), |DoFator(s, f)|) && Contar(s)[f].count > 0
    ensures NoDup(Chaves(s))
  {
    forall f {
      ContarFator(s, f);
    }
    ChavesSemRepeticao(s);
  }

  // ---------------------------------------------------------------------
  // Means, the stable sort and the positive / negative split

  /** `soma / count` for an entry of the tally. */
  function Media(c: Contagem): real
    requires c.count > 0
  {
    c.soma as real / c.count as real
  }

  lemma ProdutoPositivo(a: real, b: real)
    requires a > 0.0 && b > 0.0
    ensures a * b > 0.0
  {
  }

  lemma ProdutoNaoPositivo(a: real, b: real)
    requires a <= 0.0 && b > 0.0
    ensures a * b <= 0.0
  {
  }

  /** The mean is above 3 exactly when `soma > 3 * count`. */
  lemma MediaAcimaDeTres(c: Contagem)
    requires c.count > 0
    ensures Media(c) > 3.0 <==> c.soma > 3 * c.count
  {
    var k := c.count as real;
    var m := Media(c);
    assert m * k == c.soma as real;
    assert c.soma as real - 3.0 * k == (m - 3.0) * k;
    if m > 3.0 {
      ProdutoPositivo(m - 3.0, k);
    } else {
      ProdutoNaoPositivo(m - 3.0, k);
    }
  }

  /** An element of `fatoresMedia`. */
  datatype FatorMedia = FatorMedia(fator: string, media: real)

  /** `Object.entries(fatorContagem).map(([fator, { soma, count }]) => ({ fator, media: soma / count }))`,
      the entries taken in the key order `chaves`. */
  function Medias(chaves: seq<string>, contagem: map<string, Contagem>): (r: seq<FatorMedia>)
    requires forall i :: 0 <= i < |chaves| ==> chaves[i] in contagem && contagem[chaves[i]].count > 0
    ensures |r| == |chaves|
    ensures forall i :: 0 <= i < |r| ==> r[i].fator == chaves[i] && r[i].media == Media(contagem[chaves[i]])
  {
    seq(|chaves|, i requires 0 <= i < |chaves| => FatorMedia(chaves[i], Media(contagem[chaves[i]])))
  }

  /** Whether `a` may stand before `b`: by non-increasing mean (`desc`, the
      comparator `b.media - a.media`) or by non-decreasing mean
      (`a.media - b.media`). */
  predicate Antes(a: FatorMedia, b: FatorMedia, desc: bool) {
    if desc then a.media >= b.media else a.media <= b.media
  }

  ghost predicate Ordenada(s: seq<FatorMedia>, desc: bool) {
    forall i, j :: 0 <= i < j < |s| ==> Antes(s[i], s[j], desc)
  }

  /** Inserts `x` after every element that may stand before it. */
  function Inserir(x: FatorMedia, s: seq<FatorMedia>, desc: bool): (r: seq<FatorMedia>)
    ensures multiset(r) == multiset(s) + multiset{x}
    ensures |r| == |s| + 1
  {
    if s == [] then [x]
    else if Antes(s[0], x, desc) then
      assert s == [s[0]] + s[1..];
      [s[0]] + Inserir(x, s[1..], desc)
    else [x] + s
  }

  /** `Array.prototype.sort` with the comparator of `desc`. The sort the
      language specifies is stable, and a stable sort's output is fixed by
      its input, so an insertion sort that puts each later element after
      its equals computes it. */
  function Ordenar(s: seq<FatorMedia>, desc: bool): (r: seq<FatorMedia>)
    ensures multiset(r) == multiset(s)
    ensures |r| == |s|
  {
    if s == [] then []
    else
      assert s == s[..|s| - 1] + [s[|s| - 1]];
      Inserir(s[|s| - 1], Ordenar(s[..|s| - 1], desc), desc)
  }

  lemma {:induction false} InserirOrdenada(x: FatorMedia, s: seq<FatorMedia>, desc: bool)
    requires Ordenada(s, desc)
    ensures Ordenada(Inserir(x, s, desc), desc)
  {
    if s != [] && Antes(s[0], x, desc) {
      InserirOrdenada(x, s[1..], desc);
      var t := Inserir(x, s[1..], desc);
      forall j | 0 <= j < |t|
        ensures Antes(s[0], t[j], desc)
      {
        assert t[j] in multiset(t);
        assert t[j] == x || t[j] in s[1..];
      }
    }
  }

  /** The sorted list is ordered by the comparator. */
  lemma {:induction false} OrdenarOrdenada(s: seq<FatorMedia>, desc: bool)
    ensures Ordenada(Ordenar(s, desc), desc)
  {
    if s != [] {
      OrdenarOrdenada(s[..|s| - 1], desc);
      InserirOrdenada(s[|s| - 1], Ordenar(s[..|s| - 1], desc), desc);
    }
  }

  /** The entries whose mean is `v`. */
  function MesmaMedia(v: real): FatorMedia -> bool {
    (e: FatorMedia) => e.media == v
  }

  lemma OrdenadaCauda(s: seq<FatorMedia>, desc: bool)
    requires s != [] && Ordenada(s, desc)
    ensures Ordenada(s[1..], desc)
  {
    forall i, j | 0 <= i < j < |s[1..]|
      ensures Antes(s[1..][i], s[1..][j], desc)
    {
      assert s[1..][i] == s[i + 1] && s[1..][j] == s[j + 1];
    }
  }

  /** Filtering a list by its head. */
  lemma FilterCons(x: FatorMedia, s: seq<FatorMedia>, p: FatorMedia -> bool)
    ensures Filter([x] + s, p) == (if p(x) then [x] else []) + Filter(s, p)
  {
    assert ([x] + s)[1..] == s;
  }

  /** When `x` goes in front, no element of `s` has the mean of `x`. */
  lemma NenhumaComMediaDe(x: FatorMedia, s: seq<FatorMedia>, desc: bool)
    requires s != [] && Ordenada(s, desc) && !Antes(s[0], x, desc)
    ensures Filter(s, MesmaMedia(x.media)) == []
  {
    forall i | 0 <= i < |s|
      ensures !MesmaMedia(x.media)(s[i])
    {
      if i > 0 {
        assert Antes(s[0], s[i], desc);
      }
    }
    FilterNonePass(s, MesmaMedia(x.media));
  }

  /** Inserting into a sorted list adds `x` after the entries with its mean,
      and changes nothing else among the entries of any one mean. */
  lemma {:induction false} InserirEstavel(x: FatorMedia, s: seq<FatorMedia>, desc: bool, v: real)
    requires Ordenada(s, desc)
    ensures Filter(Inserir(x, s, desc), MesmaMedia(v)) ==
      Filter(s, MesmaMedia(v)) + (if x.media == v then [x] else [])
    decreases |s|, 1
  {
    if s == [] {
      FilterCons(x, [], MesmaMedia(v));
    } else if Antes(s[0], x, desc) {
      InserirEstavelDepois(x, s, desc, v);
    } else {
      var p := MesmaMedia(v);
      assert Inserir(x, s, desc) == [x] + s;
      FilterCons(x, s, p);
      if x.media == v {
        NenhumaComMediaDe(x, s, desc);
      }
    }
  }

  lemma {:induction false} InserirEstavelDepois(x: FatorMedia, s: seq<FatorMedia>, desc: bool, v: real)
    requires Ordenada(s, desc)
    requires s != [] && Antes(s[0], x, desc)
    ensures Filter(Inserir(x, s, desc), MesmaMedia(v)) ==
      Filter(s, MesmaMedia(v)) + (if x.media == v then [x] else [])
    decreases |s|, 0
  {
    var p := MesmaMedia(v);
    InserirDepoisFiltrado(x, s, desc, p);
    OrdenadaCauda(s, desc);
    InserirEstavel(x, s[1..], desc, v);
    FilterHead(s, p);
    Encadear(Filter(Inserir(x, s, desc), p), Filter(Inserir(x, s[1..], desc), p), Filter(s[1..], p),
             Filter(s, p), if p(s[0]) then [s[0]] else [], if x.media == v then [x] else []);
  }

  lemma Encadear(a: seq<FatorMedia>, b: seq<FatorMedia>, c: seq<FatorMedia>, d: seq<FatorMedia>,
                 h: seq<FatorMedia>, t: seq<FatorMedia>)
    requires a == h + b && b == c + t && d == h + c
    ensures a == d + t
  {
    assert h + (c + t) == (h + c) + t;
  }

  lemma InserirDepoisFiltrado(x: FatorMedia, s: seq<FatorMedia>, desc: bool, p: FatorMedia -> bool)
    requires s != [] && Antes(s[0], x, desc)
    ensures Filter(Inserir(x, s, desc), p) ==
      (if p(s[0]) then [s[0]] else []) + Filter(Inserir(x, s[1..], desc), p)
  {
    assert Inserir(x, s, desc) == [s[0]] + Inserir(x, s[1..], desc);
    FilterCons(s[0], Inserir(x, s[1..], desc), p);
  }

  lemma FilterHead(s: seq<FatorMedia>, p: FatorMedia -> bool)
    requires s != []
    ensures Filter(s, p) == (if p(s[0]) then [s[0]] else []) + Filter(s[1..], p)
  {
    FilterCons(s[0], s[1..], p);
    assert s == [s[0]] + s[1..];
  }

  /** The sort is stable: among entries with the same mean, the sorted list
      keeps their original order. */
  lemma {:induction false} OrdenarEstavel(s: seq<FatorMedia>, desc: bool, v: real)
    ensures Filter(Ordenar(s, desc), MesmaMedia(v)) == Filter(s, MesmaMedia(v))
  {
    if s != [] {
      var s', x := s[..|s| - 1], s[|s| - 1];
      assert s == s' + [x];
      OrdenarEstavel(s', desc, v);
      OrdenarOrdenada(s', desc);
      InserirEstavel(x, Ordenar(s', desc), desc, v);
      FilterConcat(s', [x], MesmaMedia(v));
    }
  }

  predicate Positiva(e: FatorMedia) {
    e.media > 3.0
  }

  predicate Negativa(e: FatorMedia) {
    e.media <= 3.0
  }

  /** `.map(f => f.fator)`. */
  function Nomes(s: seq<FatorMedia>): (r: seq<string>)
    ensures |r| == |s|
    ensures forall i :: 0 <= i < |s| ==> r[i] == s[i].fator
  {
    seq(|s|, i requires 0 <= i < |s| => s[i].fator)
  }

  /** `fatoresMedia.filter(f => f.media > 3).sort((a, b) => b.media - a.media).map(f => f.fator)`. */
  function Positivos(medias: seq<FatorMedia>): seq<string> {
    Nomes(Ordenar(Filter(medias, Positiva), true))
  }

  /** `fatoresMedia.filter(f => f.media <= 3).sort((a, b) => a.media - b.media).map(f => f.fator)`. */
  function Negativos(medias: seq<FatorMedia>): seq<string> {
    Nomes(Ordenar(Filter(medias, Negativa), false))
  }

  /** A name is listed by `Nomes` exactly when some entry carries it. */
  lemma NomesMembro(s: seq<FatorMedia>, f: string)
    ensures f in Nomes(s) <==> exists e :: e in s && e.fator == f
  {
    if exists e :: e in s && e.fator == f {
      var e :| e in s && e.fator == f;
      var i :| 0 <= i < |s| && s[i] == e;
      assert Nomes(s)[i] == f;
    }
  }

  /** The names of a filtered, sorted list are the names of the entries
      that pass the filter. */
  lemma NomesFiltrados(m: seq<FatorMedia>, p: FatorMedia -> bool, desc: bool, f: string)
    ensures f in Nomes(Ordenar(Filter(m, p), desc)) <==> exists e :: e in m && p(e) && e.fator == f
  {
    var o := Ordenar(Filter(m, p), desc);
    NomesMembro(o, f);
    forall e
      ensures e in o <==> e in m && p(e)
    {
      assert e in o <==> e in multiset(o);
      FilterMember(m, p, e);
    }
  }

  /** Every entry of a sorted, filtered list comes from the list of means. */
  lemma OrdenadoVemDe(m: seq<FatorMedia>, p: FatorMedia -> bool, desc: bool, i: int)
    requires 0 <= i < |Ordenar(Filter(m, p), desc)|
    ensures Ordenar(Filter(m, p), desc)[i] in m
  {
    var o := Ordenar(Filter(m, p), desc);
    assert o[i] in multiset(o);
    FilterMember(m, p, o[i]);
  }

  /** The split of the factors: a factor is positive exactly when it
      occurs and its mean is above 3, negative exactly when it occurs and
      its mean is at most 3, each distinct factor is listed once in one of
      the two lists, the positive list runs by non-increasing mean and the
      negative one by non-decreasing mean. */
  lemma {:induction false} Classificacao(chaves: seq<string>, contagem: map<string, Contagem>)
    requires forall i :: 0 <= i < |chaves| ==> chaves[i] in contagem && contagem[chaves[i]].count > 0
    ensures forall f :: f in Positivos(Medias(chaves, contagem)) <==> f in chaves && Media(contagem[f]) > 3.0
    ensures forall f :: f in Negativos(Medias(chaves, contagem)) <==> f in chaves && Media(contagem[f]) <= 3.0
    ensures |Positivos(Medias(chaves, contagem))| + |Negativos(Medias(chaves, contagem))| == |chaves|
    ensures forall i, j :: 0 <= i < j < |Positivos(Medias(chaves, contagem))| ==>
      var ps := Positivos(Medias(chaves, contagem));
      ps[i] in chaves && ps[j] in chaves && Media(contagem[ps[i]]) >= Media(contagem[ps[j]])
    ensures forall i, j :: 0 <= i < j < |Negativos(Medias(chaves, contagem))| ==>
      var ns := Negativos(Medias(chaves, contagem));
      ns[i] in chaves && ns[j] in chaves && Media(contagem[ns[i]]) <= Media(contagem[ns[j]])
  {
    var m := Medias(chaves, contagem);
    forall f
      ensures f in Positivos(m) <==> f in chaves && Media(contagem[f]) > 3.0
      ensures f in Negativos(m) <==> f in chaves && Media(contagem[f]) <= 3.0
    {
      NomesFiltrados(m, Positiva, true, f);
      NomesFiltrados(m, Negativa, false, f);
      if f in chaves {
        var i :| 0 <= i < |chaves| && chaves[i] == f;
        assert m[i] in m && m[i].fator == f;
      }
    }
    FilterComplementLength(m, Positiva, Negativa);
    OrdenarOrdenada(Filter(m, Positiva), true);
    OrdenarOrdenada(Filter(m, Negativa), false);
    forall i | 0 <= i < |Positivos(m)|
      ensures Positivos(m)[i] in chaves
      ensures Ordenar(Filter(m, Positiva), true)[i].media == Media(contagem[Positivos(m)[i]])
    {
      OrdenadoVemDe(m, Positiva, true, i);
    }
    forall i | 0 <= i < |Negativos(m)|
      ensures Negativos(m)[i] in chaves
      ensures Ordenar(Filter(m, Negativa), false)[i].media == Media(contagem[Negativos(m)[i]])
    {
      OrdenadoVemDe(m, Negativa, false, i);
    }
  }

  // ---------------------------------------------------------------------
  // The statistics of a period

  /** The value `obterEstatisticas` returns, with the mean kept as the
      exact pair (sum of levels, number of records). */
  datatype Estatisticas = Estatisticas(
    soma: int, total: nat, melhorDia: Option<string>, piorDia: Option<string>,
    fatoresPositivos: seq<string>, fatoresNegativos: seq<string>)
  {
    /** `soma / registrosProcessados.length` before rounding; 0 for no records. */
    function MediaGeral(): real {
      if total == 0 then 0.0 else soma as real / total as real
    }
  }

  const SemRegistros: Estatisticas := Estatisticas(0, 0, None, None, [], [])

  /** `reduce((acc, reg) => acc + reg.nivel, 0)`. */
  function SomaNiveis(regs: seq<RegistroHumor>): int {
    if regs == [] then 0 else regs[0].linha.nivel + SomaNiveis(regs[1..])
  }

  /** Row `b` has the highest level, and every earlier row a lower one. */
  ghost predicate PrimeiroMaximo(ls: seq<RegistroHumorLinha>, b: int) {
    && 0 <= b < |ls|
    && (forall j :: 0 <= j < |ls| ==> ls[j].nivel <= ls[b].nivel)
    && (forall j :: 0 <= j < b ==> ls[j].nivel < ls[b].nivel)
  }

  /** Row `w` has the lowest level, and every earlier row a higher one. */
  ghost predicate PrimeiroMinimo(ls: seq<RegistroHumorLinha>, w: int) {
    && 0 <= w < |ls|
    && (forall j :: 0 <= j < |ls| ==> ls[w].nivel <= ls[j].nivel)
    && (forall j :: 0 <= j < w ==> ls[w].nivel < ls[j].nivel)
  }

  function Linhas(regs: seq<RegistroHumor>): (ls: seq<RegistroHumorLinha>)
    ensures |ls| == |regs| && forall i :: 0 <= i < |regs| ==> ls[i] == regs[i].linha
  {
    seq(|regs|, i requires 0 <= i < |regs| => regs[i].linha)
  }

  /** The `for` loop over the records: it starts both picks at the first
      record and replaces one only on a strictly greater (or strictly
      smaller) level, so each pick is the first record with the extreme
      level. */
  method MelhorEPior(regs: seq<RegistroHumor>) returns (melhor: nat, pior: nat)
    requires |regs| > 0
    ensures PrimeiroMaximo(Linhas(regs), melhor)
    ensures PrimeiroMinimo(Linhas(regs), pior)
  {
    ghost var ls := Linhas(regs);
    melhor, pior := 0, 0;
    var i := 0;
    while i < |regs|
      invariant 0 <= i <= |regs|
      invariant melhor < |regs| && pior < |regs|
      invariant melhor <= i && pior <= i
      invariant forall j :: 0 <= j < i ==> ls[j].nivel <= ls[melhor].nivel
      invariant forall j :: 0 <= j < melhor ==> ls[j].nivel < ls[melhor].nivel
      invariant forall j :: 0 <= j < i ==> ls[pior].nivel <= ls[j].nivel
      invariant forall j :: 0 <= j < pior ==> ls[pior].nivel < ls[j].nivel
    {
      if regs[i].linha.nivel > regs[melhor].linha.nivel {
        melhor := i;
      }
      if regs[i].linha.nivel < regs[pior].linha.nivel {
        pior := i;
      }
      i := i + 1;
    }
  }

  /** The outer `forEach` filling `fatorContagem`, with the order in which
      keys are created. */
  method ContarFatores(regs: seq<RegistroHumor>) returns (contagem: map<string, Contagem>, chaves: seq<string>)
    ensures contagem == Contar(Ocorrencias(regs))
    ensures chaves == Chaves(Ocorrencias(regs))
  {
    contagem, chaves := map[], [];
    var i := 0;
    while i < |regs|
      invariant 0 <= i <= |regs|
      invariant contagem == Contar(Ocorrencias(regs[..i]))
      invariant chaves == Chaves(Ocorrencias(regs[..i]))
    {
      contagem, chaves := ContarRegistro(contagem, chaves, regs[i], Ocorrencias(regs[..i]));
      assert regs[..i + 1] == regs[..i] + [regs[i]];
      OcorrenciasSnoc(regs[..i], regs[i]);
      i := i + 1;
    }
    assert regs[..|regs|] == regs;
  }

  /** Creating a missing key at zero and then bumping it is one `Somar`. */
  lemma CriarEntaoSomar(t0: map<string, Contagem>, t1: map<string, Contagem>, f: string, n: int)
    requires t1 == if f !in t0 then t0[f := Contagem(0, 0)] else t0
    ensures t1[f := Contagem(t1[f].soma + n, t1[f].count + 1)] == Somar(t0, Ocorrencia(f, n))
  {
  }

  /** The occurrences up to the `j`-th factor of `r` extend those before it by one. */
  lemma ProximaOcorrencia(antes: seq<Ocorrencia>, r: RegistroHumor, j: nat)
    requires j < |r.fatores|
    ensures antes + OcorrenciasDe(r)[..j + 1] == (antes + OcorrenciasDe(r)[..j]) + [Ocorrencia(r.fatores[j], r.linha.nivel)]
  {
    var os := OcorrenciasDe(r);
    assert os[..j + 1] == os[..j] + [os[j]];
  }

  /** The body of the inner `forEach`: a key that is absent is created
      at `{ soma: 0, count: 0 }`, then the level is added to it and its
      count bumped; the key order gains the key when it was new. */
  method SomarFator(contagem0: map<string, Contagem>, chaves0: seq<string>, f: string, nivel: int,
                    ghost visto: seq<Ocorrencia>)
    returns (contagem: map<string, Contagem>, chaves: seq<string>)
    requires contagem0 == Contar(visto) && chaves0 == Chaves(visto)
    ensures contagem == Contar(visto + [Ocorrencia(f, nivel)])
    ensures chaves == Chaves(visto + [Ocorrencia(f, nivel)])
  {
    PassoContagem(visto, Ocorrencia(f, nivel));
    contagem, chaves := contagem0, chaves0;
    if f !in contagem {
      contagem := contagem[f := Contagem(0, 0)];
      chaves := chaves + [f];
    }
    CriarEntaoSomar(contagem0, contagem, f, nivel);
    contagem := contagem[f := Contagem(contagem[f].soma + nivel, contagem[f].count + 1)];
  }

  /** The inner `forEach` over one record's factors. */
  method ContarRegistro(contagem0: map<string, Contagem>, chaves0: seq<string>, r: RegistroHumor,
                        ghost antes: seq<Ocorrencia>)
    returns (contagem: map<string, Contagem>, chaves: seq<string>)
    requires contagem0 == Contar(antes) && chaves0 == Chaves(antes)
    ensures contagem == Contar(antes + OcorrenciasDe(r))
    ensures chaves == Chaves(antes + OcorrenciasDe(r))
  {
    contagem, chaves := contagem0, chaves0;
    var j := 0;
    assert antes + OcorrenciasDe(r)[..0] == antes;
    while j < |r.fatores|
      invariant 0 <= j <= |r.fatores|
      invariant contagem == Contar(antes + OcorrenciasDe(r)[..j])
      invariant chaves == Chaves(antes + OcorrenciasDe(r)[..j])
    {
      contagem, chaves := SomarFator(contagem, chaves, r.fatores[j], r.linha.nivel, antes + OcorrenciasDe(r)[..j]);
      ProximaOcorrencia(antes, r, j);
      j := j + 1;
    }
    assert OcorrenciasDe(r)[..|r.fatores|] == OcorrenciasDe(r);
  }

  // ---------------------------------------------------------------------
  // Bounds on the mean

  /** Every level lies in `[lo, hi]`, so the sum lies in `[lo * n, hi * n]`. */
  lemma {:induction false} SomaEntre(regs: seq<RegistroHumor>, lo: int, hi: int)
    requires forall j :: 0 <= j < |regs| ==> lo <= regs[j].linha.nivel <= hi
    ensures lo * |regs| <= SomaNiveis(regs) <= hi * |regs|
  {
    if regs != [] {
      SomaEntre(regs[1..], lo, hi);
      assert lo * |regs| == lo + lo * (|regs| - 1);
      assert hi * |regs| == hi + hi * (|regs| - 1);
    }
  }

  lemma FatorNaoNegativo(a: real, b: real)
    requires b > 0.0 && a * b >= 0.0
    ensures a >= 0.0
  {
  }

  /** Dividing a sum that lies in `[lo * n, hi * n]` by `n` lands in `[lo, hi]`. */
  lemma DivisaoEntre(s: int, n: int, lo: int, hi: int)
    requires n > 0 && lo * n <= s <= hi * n
    ensures lo as real <= s as real / n as real <= hi as real
  {
    var q := s as real / n as real;
    var k := n as real;
    assert q * k == s as real;
    assert (lo * n) as real == lo as real * k;
    assert (hi * n) as real == hi as real * k;
    assert (q - lo as real) * k == s as real - lo as real * k;
    assert (hi as real - q) * k == hi as real * k - s as real;
    FatorNaoNegativo(q - lo as real, k);
    FatorNaoNegativo(hi as real - q, k);
  }

  // ---------------------------------------------------------------------
  // The factor lists of a period

  /** The factor occurrences of the rows a query returned. */
  function Fatores(linhas: seq<RegistroHumorLinha>): seq<Ocorrencia> {
    Ocorrencias(Processados(linhas))
  }

  /** The mean level of the records a factor occurs in, counted once per
      occurrence. */
  function MediaDoFator(s: seq<Ocorrencia>, f: string): real
    requires |DoFator(s, f)| > 0
  {
    SomaDe(DoFator(s, f)) as real / |DoFator(s, f)| as real
  }

  /** The distinct factors among the occurrences. */
  ghost function Distintos(s: seq<Ocorrencia>): set<string> {
    set o | o in s :: o.fator
  }

  /** `fatoresPositivos` for the occurrences `s`. */
  function FatoresPositivos(s: seq<Ocorrencia>): seq<string> {
    ContarCorreto(s);
    Positivos(Medias(Chaves(s), Contar(s)))
  }

  /** `fatoresNegativos` for the occurrences `s`. */
  function FatoresNegativos(s: seq<Ocorrencia>): seq<string> {
    ContarCorreto(s);
    Negativos(Medias(Chaves(s), Contar(s)))
  }

  /** A factor occurs exactly when it has occurrences. */
  lemma DistintoSeOcorre(s: seq<Ocorrencia>, f: string)
    ensures f in Distintos(s) <==> |DoFator(s, f)| > 0
  {
    var p := (o: Ocorrencia) => o.fator == f;
    if f in Distintos(s) {
      var o :| o in s && o.fator == f;
      FilterMember(s, p, o);
      assert o in DoFator(s, f);
    }
    if |DoFator(s, f)| > 0 {
      var o := DoFator(s, f)[0];
      FilterMember(s, p, o);
    }
  }

  /** The mean of a factor, in the terms of the tally. */
  lemma MediaDoFatorContada(s: seq<Ocorrencia>, f: string)
    requires |DoFator(s, f)| > 0
    ensures f in Contar(s) && Contar(s)[f].count > 0
    ensures MediaDoFator(s, f) == Media(Contar(s)[f])
    ensures MediaDoFator(s, f) > 3.0 <==> SomaDe(DoFator(s, f)) > 3 * |DoFator(s, f)|
  {
    ContarFator(s, f);
    MediaAcimaDeTres(Contar(s)[f]);
  }

  /** One factor's place in the split, stated on the occurrences alone. */
  lemma FatorClassificado(s: seq<Ocorrencia>, f: string)
    ensures f in Chaves(s) <==> f in Distintos(s)
    ensures f in FatoresPositivos(s) <==> |DoFator(s, f)| > 0 && SomaDe(DoFator(s, f)) > 3 * |DoFator(s, f)|
    ensures f in FatoresNegativos(s) <==> |DoFator(s, f)| > 0 && SomaDe(DoFator(s, f)) <= 3 * |DoFator(s, f)|
  {
    ContarCorreto(s);
    Classificacao(Chaves(s), Contar(s));
    ContarFator(s, f);
    DistintoSeOcorre(s, f);
    if |DoFator(s, f)| > 0 {
      MediaDoFatorContada(s, f);
    }
  }

  /** The two lists add up to the keys of the tally. */
  lemma ListasSomamChaves(s: seq<Ocorrencia>)
    ensures |FatoresPositivos(s)| + |FatoresNegativos(s)| == |Chaves(s)|
    ensures NoDup(Chaves(s))
  {
    ContarCorreto(s);
    Classificacao(Chaves(s), Contar(s));
  }

  /** As sets, the keys are the distinct factors, split by the two lists
      without overlap. */
  lemma ConjuntosDasListas(s: seq<Ocorrencia>)
    ensures (set f | f in Chaves(s)) == Distintos(s)
    ensures (set f | f in Chaves(s)) == (set f | f in FatoresPositivos(s)) + (set f | f in FatoresNegativos(s))
    ensures (set f | f in FatoresPositivos(s)) * (set f | f in FatoresNegativos(s)) == {}
  {
    forall f
      ensures f in Chaves(s) <==> f in Distintos(s)
      ensures f in Chaves(s) <==> f in FatoresPositivos(s) || f in FatoresNegativos(s)
      ensures !(f in FatoresPositivos(s) && f in FatoresNegativos(s))
    {
      FatorClassificado(s, f);
      ContarFator(s, f);
    }
  }

  /** Neither list repeats a factor, and together they list each distinct
      factor once. */
  lemma ListasSemRepeticao(s: seq<Ocorrencia>)
    ensures NoDup(FatoresPositivos(s)) && NoDup(FatoresNegativos(s))
    ensures |FatoresPositivos(s)| + |FatoresNegativos(s)| == |Distintos(s)|
  {
    var chaves, ps, ns := Chaves(s), FatoresPositivos(s), FatoresNegativos(s);
    ListasSomamChaves(s);
    ConjuntosDasListas(s);
    DistinctCount(chaves);
    DistinctCount(ps);
    DistinctCount(ns);
  }

  /** The positive list runs by non-increasing mean of the factor. */
  lemma PositivosOrdenados(s: seq<Ocorrencia>, i: int, j: int)
    requires 0 <= i < j < |FatoresPositivos(s)|
    ensures |DoFator(s, FatoresPositivos(s)[i])| > 0 && |DoFator(s, FatoresPositivos(s)[j])| > 0
    ensures MediaDoFator(s, FatoresPositivos(s)[i]) >= MediaDoFator(s, FatoresPositivos(s)[j])
  {
    var ps := FatoresPositivos(s);
    ContarCorreto(s);
    Classificacao(Chaves(s), Contar(s));
    ContarFator(s, ps[i]);
    ContarFator(s, ps[j]);
    MediaDoFatorContada(s, ps[i]);
    MediaDoFatorContada(s, ps[j]);
  }

  /** The negative list runs by non-decreasing mean of the factor. */
  lemma NegativosOrdenados(s: seq<Ocorrencia>, i: int, j: int)
    requires 0 <= i < j < |FatoresNegativos(s)|
    ensures |DoFator(s, FatoresNegativos(s)[i])| > 0 && |DoFator(s, FatoresNegativos(s)[j])| > 0
    ensures MediaDoFator(s, FatoresNegativos(s)[i]) <= MediaDoFator(s, FatoresNegativos(s)[j])
  {
    var ns := FatoresNegativos(s);
    ContarCorreto(s);
    Classificacao(Chaves(s), Contar(s));
    ContarFator(s, ns[i]);
    ContarFator(s, ns[j]);
    MediaDoFatorContada(s, ns[i]);
    MediaDoFatorContada(s, ns[j]);
  }

  // ---------------------------------------------------------------------
  // `obterEstatisticas`

  /** The statistics `obterEstatisticas` returns for the rows of a period,
      in the order the query returned them (ascending by date): no rows
      give the empty statistics; otherwise the sum and number of levels,
      the first record with the highest and the first with the lowest
      level, whose levels bound the mean, and the two factor lists of the
      intended tally, which are the lists the code computes whenever no
      factor is named like an `Object.prototype` member. */
  ghost predicate EstatisticasDe(linhas: seq<RegistroHumorLinha>, e: Estatisticas) {
    && (linhas == [] ==> e == SemRegistros)
    && (linhas != [] ==> e.total == |linhas| && e.soma == SomaNiveis(Processados(linhas)))
    && (linhas != [] ==>
          exists b, w ::
            (&& PrimeiroMaximo(linhas, b) && e.melhorDia == Some(linhas[b].data)
             && PrimeiroMinimo(linhas, w) && e.piorDia == Some(linhas[w].data)
             && linhas[w].nivel as real <= e.MediaGeral() <= linhas[b].nivel as real))
    && e.fatoresPositivos == FatoresPositivos(Fatores(linhas))
    && e.fatoresNegativos == FatoresNegativos(Fatores(linhas))
    && ((forall i :: 0 <= i < |Fatores(linhas)| ==> Fatores(linhas)[i].fator !in HerdadosDeObject) ==>
          e.fatoresPositivos == PositivosComoEscrito(Fatores(linhas))
          && e.fatoresNegativos == NegativosComoEscrito(Fatores(linhas)))
  }

  /** Without inherited names among the factors, the lists the code
      computes are the intended ones. */
  lemma ListasComoEscrito(linhas: seq<RegistroHumorLinha>)
    ensures (forall i :: 0 <= i < |Fatores(linhas)| ==> Fatores(linhas)[i].fator !in HerdadosDeObject) ==>
      PositivosComoEscrito(Fatores(linhas)) == FatoresPositivos(Fatores(linhas))
      && NegativosComoEscrito(Fatores(linhas)) == FatoresNegativos(Fatores(linhas))
  {
    if forall i :: 0 <= i < |Fatores(linhas)| ==> Fatores(linhas)[i].fator !in HerdadosDeObject {
      ComoEscritoSemHerdados(Fatores(linhas));
    }
  }

  /** The factor analysis of `obterEstatisticas`: the tally, the means
      and the two filter-sort-map pipelines. */
  method ListasFatores(regs: seq<RegistroHumor>) returns (positivos: seq<string>, negativos: seq<string>)
    ensures positivos == FatoresPositivos(Ocorrencias(regs))
    ensures negativos == FatoresNegativos(Ocorrencias(regs))
    ensures regs == [] ==> positivos == [] && negativos == []
  {
    var contagem, chaves := ContarFatores(regs);
    ContarCorreto(Ocorrencias(regs));
    var medias := Medias(chaves, contagem);
    positivos, negativos := Positivos(medias), Negativos(medias);
  }

  /** The mean of the levels lies between the levels of the two picks. */
  lemma MediaEntreExtremos(linhas: seq<RegistroHumorLinha>, melhor: int, pior: int)
    requires PrimeiroMaximo(linhas, melhor) && PrimeiroMinimo(linhas, pior)
    ensures linhas[pior].nivel as real <= SomaNiveis(Processados(linhas)) as real / |linhas| as real
    ensures SomaNiveis(Processados(linhas)) as real / |linhas| as real <= linhas[melhor].nivel as real
  {
    var regs := Processados(linhas);
    SomaEntre(regs, linhas[pior].nivel, linhas[melhor].nivel);
    DivisaoEntre(SomaNiveis(regs), |regs|, linhas[pior].nivel, linhas[melhor].nivel);
  }

  /** Statistics assembled from the two picks and the two lists are those
      of the rows. */
  lemma EstatisticasMontadas(linhas: seq<RegistroHumorLinha>, melhor: int, pior: int, e: Estatisticas)
    requires PrimeiroMaximo(linhas, melhor) && PrimeiroMinimo(linhas, pior)
    requires e.soma == SomaNiveis(Processados(linhas)) && e.total == |linhas|
    requires e.melhorDia == Some(linhas[melhor].data) && e.piorDia == Some(linhas[pior].data)
    requires e.fatoresPositivos == FatoresPositivos(Fatores(linhas))
    requires e.fatoresNegativos == FatoresNegativos(Fatores(linhas))
    ensures EstatisticasDe(linhas, e)
  {
    MediaEntreExtremos(linhas, melhor, pior);
    ListasComoEscrito(linhas);
  }

  /** The computation `obterEstatisticas` performs once the rows are in. */
  method CalcularEstatisticas(linhas: seq<RegistroHumorLinha>) returns (e: Estatisticas)
    ensures EstatisticasDe(linhas, e)
  {
    var regs := Processados(linhas);
    var positivos, negativos := ListasFatores(regs);
    if |linhas| == 0 {
      ListasComoEscrito(linhas);
      return Estatisticas(0, 0, None, None, positivos, negativos);
    }
    assert Linhas(regs) == linhas;
    var melhor, pior := MelhorEPior(regs);
    e := Estatisticas(SomaNiveis(regs), |regs|, Some(regs[melhor].linha.data), Some(regs[pior].linha.data),
                      positivos, negativos);
    EstatisticasMontadas(linhas, melhor, pior, e);
  }

  // ---------------------------------------------------------------------
  // Factor names inherited from `Object.prototype`

  /** The property names every plain object literal `{}` inherits from
      `Object.prototype` (sections 20.1.3 and B.2.2 of ECMA-262). Reading
      `fatorContagem[f]` for one of them gives a function or, for
      `__proto__`, the prototype itself: a truthy value. */
  const HerdadosDeObject: set<string> := {
    "constructor", "hasOwnProperty", "isPrototypeOf", "propertyIsEnumerable",
    "toLocaleString", "toString", "valueOf", "__proto__",
    "__defineGetter__", "__defineSetter__", "__lookupGetter__", "__lookupSetter__"}

  /** An occurrence whose factor name `{}` does not already resolve. */
  predicate Propria(o: Ocorrencia) {
    o.fator !in HerdadosDeObject
  }

  /** The tally as the code is written: for an inherited name the test
      `!fatorContagem[fator]` is false, no own entry is created and the two
      additions land on the inherited value, so `Object.entries` never
      lists it; every other factor is tallied as usual. */
  function OcorrenciasComoEscrito(s: seq<Ocorrencia>): (r: seq<Ocorrencia>)
    ensures forall i :: 0 <= i < |r| ==> r[i].fator !in HerdadosDeObject
  {
    var r := Filter(s, Propria);
    forall i | 0 <= i < |r|
      ensures r[i].fator !in HerdadosDeObject
    {
      FilterMember(s, Propria, r[i]);
    }
    r
  }

  /** The lists the code as written returns. */
  function PositivosComoEscrito(s: seq<Ocorrencia>): seq<string> {
    FatoresPositivos(OcorrenciasComoEscrito(s))
  }

  function NegativosComoEscrito(s: seq<Ocorrencia>): seq<string> {
    FatoresNegativos(OcorrenciasComoEscrito(s))
  }

  /** As written, a factor named like an inherited property is in neither
      list, however often it occurs. */
  lemma HerdadoNuncaListado(s: seq<Ocorrencia>, f: string)
    requires f in HerdadosDeObject
    ensures f !in PositivosComoEscrito(s) && f !in NegativosComoEscrito(s)
  {
    var t := OcorrenciasComoEscrito(s);
    FatorClassificado(t, f);
    if |DoFator(t, f)| > 0 {
      FilterMember(t, (o: Ocorrencia) => o.fator == f, DoFator(t, f)[0]);
    }
  }

  /** One record with a level of 5 and the factor `"constructor"`: the
      factor belongs in the positive list, and the code as written lists
      it nowhere. */
  lemma ConstructorDescartado()
    ensures FatoresPositivos([Ocorrencia("constructor", 5)]) == ["constructor"]
    ensures PositivosComoEscrito([Ocorrencia("constructor", 5)]) == []
    ensures NegativosComoEscrito([Ocorrencia("constructor", 5)]) == []
  {
    var s := [Ocorrencia("constructor", 5)];
    FilterNonePass(s, Propria);
    assert OcorrenciasComoEscrito(s) == [];
    ListasSemRepeticao([]);
    assert Distintos([]) == {};
    UmFatorSo(s, "constructor");
  }

  /** With a single occurrence, of a level above 3, the positive list is
      that factor alone. */
  lemma UmFatorSo(s: seq<Ocorrencia>, f: string)
    requires s == [Ocorrencia(f, 5)]
    ensures FatoresPositivos(s) == [f]
  {
    var ps := FatoresPositivos(s);
    assert DoFator(s, f) == s;
    FatorClassificado(s, f);
    assert f in ps;
    ListasSemRepeticao(s);
    assert Distintos(s) == {f};
    assert |ps| == 1;
  }

  /** Without inherited names among the factors the code as written and
      the model agree. */
  lemma ComoEscritoSemHerdados(s: seq<Ocorrencia>)
    requires forall i :: 0 <= i < |s| ==> s[i].fator !in HerdadosDeObject
    ensures PositivosComoEscrito(s) == FatoresPositivos(s)
    ensures NegativosComoEscrito(s) == FatoresNegativos(s)
  {
    FilterAllPass(s, Propria);
  }

  // ---------------------------------------------------------------------
  // The hook's state

  /** The test removal applies: the records with another id stay. */
  function OutroRegistro(id: string): RegistroHumor -> bool {
    (x: RegistroHumor) => x.linha.id != id
  }

  /** `prev.filter(registro => registro.id !== id)`: every record with another id is kept
      as many times as it occurs, none with that id is, and the order is
      kept (`SemRegistroOrdem`). */
  function SemRegistro(regs: seq<RegistroHumor>, id: string): (r: seq<RegistroHumor>)
    ensures forall x :: x in r <==> x in regs && x.linha.id != id
    ensures forall x :: multiset(r)[x] == if x.linha.id != id then multiset(regs)[x] else 0
    ensures |r| <= |regs|
  {
    var r := Filter(regs, OutroRegistro(id));
    forall x
      ensures multiset(r)[x] == if x.linha.id != id then multiset(regs)[x] else 0
    {
      FilterMultiset(regs, OutroRegistro(id), x);
    }
    r
  }

  /** Removal works piece by piece in list order: on a concatenation it is
      the concatenation of the removals, and a single record is kept or dropped. */
  lemma SemRegistroOrdem(a: seq<RegistroHumor>, b: seq<RegistroHumor>, id: string)
    ensures SemRegistro(a + b, id) == SemRegistro(a, id) + SemRegistro(b, id)
    ensures forall x :: SemRegistro([x], id) == if x.linha.id != id then [x] else []
  {
    FilterConcat(a, b, OutroRegistro(id));
  }

  /** The state `useRegistrosHumor` keeps: the loaded records, the loading
      flag and the last error message. */
  class RegistrosHumorHook {
    var registros: seq<RegistroHumor>
    var loading: bool
    var error: Option<string>

    /** `useState([])`, `useState(true)`, `useState(null)`. */
    constructor ()
      ensures registros == [] && loading && error == None
    {
      registros, loading, error := [], true, None;
    }

    /** `carregarRegistros`: with no signed-in user or a failed query the
        message is kept in `error` and the records stay; otherwise they are
        replaced by the processed rows (none when `data` is null). Loading
        ends either way. */
    method Carregar(user: Option<string>, resposta: Reply<RegistroHumorLinha>)
      modifies this
      ensures !loading
      ensures user.None? ==> registros == old(registros) && error == Some(NaoAutenticado)
      ensures user.Some? && resposta.Rejected? ==>
        registros == old(registros) && error == Some(resposta.message)
      ensures user.Some? && resposta.Answered? ==>
        registros == Processados(resposta.Rows()) && error == None
    {
      loading, error := true, None;
      if user.None? {
        error := Some(NaoAutenticado);
      } else if resposta.Rejected? {
        error := Some(resposta.message);
      } else {
        registros := Processados(resposta.Rows());
      }
      loading := false;
    }

    /** `removerRegistro`: once the delete succeeds, the records with that
        id leave the list and the others keep their order; a failed delete
        keeps the list and records the message. */
    method Remover(id: string, resposta: Ack) returns (ok: bool)
      modifies this
      ensures ok <==> resposta.Acked?
      ensures loading == old(loading)
      ensures resposta.Acked? ==> registros == SemRegistro(old(registros), id) && error == None
      ensures resposta.Refused? ==> registros == old(registros) && error == Some(resposta.message)
    {
      error := None;
      if resposta.Refused? {
        error := Some(resposta.message);
        return false;
      }
      registros := SemRegistro(registros, id);
      return true;
    }

    /** `obterEstatisticas(inicio, fim)`: `resposta` is the reply to the
        query for the user's records dated from `inicio` to `fim`,
        ascending by date. No user or a failed query gives null and the
        message; otherwise the statistics of the rows. The record list and
        the loading flag are not touched. */
    method ObterEstatisticas(user: Option<string>, resposta: Reply<RegistroHumorLinha>)
      returns (r: Option<Estatisticas>)
      modifies this
      ensures registros == old(registros) && loading == old(loading)
      ensures user.None? ==> r == None && error == Some(NaoAutenticado)
      ensures user.Some? && resposta.Rejected? ==> r == None && error == Some(resposta.message)
      ensures user.Some? && resposta.Answered? ==>
        r.Some? && EstatisticasDe(resposta.Rows(), r.value) && error == None
    {
      error := None;
      if user.None? {
        error := Some(NaoAutenticado);
        return None;
      }
      if resposta.Rejected? {
        error := Some(resposta.message);
        return None;
      }
      var e := CalcularEstatisticas(resposta.Rows());
      return Some(e);
    }
  }
}
