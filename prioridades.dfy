/** The daily priorities list (app/components/inicio/ListaPrioridades.tsx):
    the tasks of category `inicio` shown for one day, the history of days
    that have any, moving through that history, and adding and editing
    priorities through the task hook. */
module Prioridades {
  import opened Wrappers
  import opened Seqs
  import opened Text
  import opened Tipos
  import opened Tarefas

  // ---------------------------------------------------------------------
  // What is shown

  /** `tarefas.filter(t => t.categoria === 'inicio')`. */
  function PrioridadesDe(ts: seq<Tarefa>): (r: seq<Tarefa>)
    ensures forall t :: t in r <==> t in ts && t.categoria == Inicio
    ensures |r| <= |ts|
  {
    var r := Filter(ts, (t: Tarefa) => t.categoria == Inicio);
    forall t
      ensures t in r <==> t in ts && t.categoria == Inicio
    {
      FilterMember(ts, (t: Tarefa) => t.categoria == Inicio, t);
    }
    r
  }

  /** `prioridades.filter(t => t.data === dataAtual)`: the priorities of the day. */
  function DoDia(ts: seq<Tarefa>, dia: string): (r: seq<Tarefa>)
    ensures forall t :: t in r <==> t in ts && t.categoria == Inicio && t.data == dia
  {
    var ps := PrioridadesDe(ts);
    var r := Filter(ps, (t: Tarefa) => t.data == dia);
    forall t
      ensures t in r <==> t in ts && t.categoria == Inicio && t.data == dia
    {
      FilterMember(ps, (t: Tarefa) => t.data == dia, t);
    }
    r
  }

  /** Both filters keep the order of the task list: filtering by category
      and then by day is filtering once by both. */
  lemma {:induction false} DoDiaEmOrdem(ts: seq<Tarefa>, dia: string)
    ensures DoDia(ts, dia) == Filter(ts, (t: Tarefa) => t.categoria == Inicio && t.data == dia)
  {
    if ts != [] {
      DoDiaEmOrdem(ts[1..], dia);
      assert PrioridadesDe(ts) == Filter(ts, (t: Tarefa) => t.categoria == Inicio);
    }
  }

  // ---------------------------------------------------------------------
  // The history of dates

  /** `prioridades.map(p => p.data)`. */
  function Datas(ps: seq<Tarefa>): (r: seq<string>)
    ensures |r| == |ps| && forall i :: 0 <= i < |ps| ==> r[i] == ps[i].data
  {
    seq(|ps|, i requires 0 <= i < |ps| => ps[i].data)
  }

  /** `Array.from(new Set(s))`: each value once, in order of first appearance. */
  function Distintas(s: seq<string>): (r: seq<string>)
    ensures forall x :: x in r <==> x in s
  {
    if s == [] then []
    else
      var r := Distintas(s[..|s| - 1]);
      assert forall x :: x in s <==> x in s[..|s| - 1] || x == s[|s| - 1] by {
        assert s == s[..|s| - 1] + [s[|s| - 1]];
      }
      if s[|s| - 1] in r then r else r + [s[|s| - 1]]
  }

  lemma {:induction false} DistintasSemRepeticao(s: seq<string>)
    ensures NoDup(Distintas(s))
  {
    if s != [] {
      DistintasSemRepeticao(s[..|s| - 1]);
    }
  }

  /** Strictly ascending in the order of `sort()`. */
  ghost predicate Crescente(s: seq<string>) {
    forall i, j :: 0 <= i < j < |s| ==> Less(s[i], s[j])
  }

  /** One insertion step of `sort()`: `x` goes before the first element
      not below it. */
  function InserirTexto(x: string, s: seq<string>): (r: seq<string>)
    ensures multiset(r) == multiset(s) + multiset{x}
  {
    if s == [] || !Less(s[0], x) then [x] + s
    else
      assert s == [s[0]] + s[1..];
      [s[0]] + InserirTexto(x, s[1..])
  }

  /** `sort()` with the default comparison. */
  function OrdenarTextos(s: seq<string>): (r: seq<string>)
    ensures multiset(r) == multiset(s)
  {
    if s == [] then []
    else
      assert s == [s[0]] + s[1..];
      InserirTexto(s[0], OrdenarTextos(s[1..]))
  }

  lemma {:induction false} InserirCrescente(x: string, s: seq<string>)
    requires Crescente(s) && x !in s
    ensures Crescente(InserirTexto(x, s))
  {
    if s == [] {
    } else if !Less(s[0], x) {
      LessTotal(x, s[0]);
      forall j | 1 <= j < |s|
        ensures Less(x, s[j])
      {
        LessTransitive(x, s[0], s[j]);
      }
    } else {
      assert Crescente(s[1..]);
      InserirCrescente(x, s[1..]);
      var r := InserirTexto(x, s[1..]);
      forall j | 0 <= j < |r|
        ensures Less(s[0], r[j])
      {
        assert r[j] in multiset(r);
        if r[j] != x {
          assert r[j] in s[1..];
        }
      }
    }
  }

  lemma {:induction false} OrdenarCrescente(s: seq<string>)
    requires NoDup(s)
    ensures Crescente(OrdenarTextos(s))
  {
    if s != [] {
      assert NoDup(s[1..]);
      OrdenarCrescente(s[1..]);
      assert s[0] !in s[1..];
      assert s[0] !in multiset(OrdenarTextos(s[1..]));
      InserirCrescente(s[0], OrdenarTextos(s[1..]));
    }
  }

  /** `reverse()`. */
  function Invertida(s: seq<string>): (r: seq<string>)
    ensures |r| == |s| && forall i :: 0 <= i < |s| ==> r[i] == s[|s| - 1 - i]
  {
    if s == [] then [] else Invertida(s[1..]) + [s[0]]
  }

  /** `datasHistorico`: the dates of the priorities, each once, newest first. */
  function DatasHistorico(ts: seq<Tarefa>): seq<string> {
    Invertida(OrdenarTextos(Distintas(Datas(PrioridadesDe(ts)))))
  }

  /** Strictly descending: every date is above each later one. */
  ghost predicate Decrescente(s: seq<string>) {
    forall i, j :: 0 <= i < j < |s| ==> Less(s[j], s[i])
  }

  /** Reversing keeps the elements. */
  lemma InvertidaMembro(s: seq<string>, d: string)
    ensures d in Invertida(s) <==> d in s
  {
    var r := Invertida(s);
    if d in r {
      var i :| 0 <= i < |r| && r[i] == d;
      assert s[|s| - 1 - i] == d;
    }
    if d in s {
      var i :| 0 <= i < |s| && s[i] == d;
      assert r[|s| - 1 - i] == d;
    }
  }

  /** A date is listed by the priorities exactly when some priority has it. */
  lemma DatasMembro(ts: seq<Tarefa>, d: string)
    ensures d in Datas(PrioridadesDe(ts)) <==> exists t :: t in ts && t.categoria == Inicio && t.data == d
  {
    var ps := PrioridadesDe(ts);
    if d in Datas(ps) {
      var i :| 0 <= i < |ps| && Datas(ps)[i] == d;
      assert ps[i] in ps;
    }
    if exists t :: t in ts && t.categoria == Inicio && t.data == d {
      var t :| t in ts && t.categoria == Inicio && t.data == d;
      var i :| 0 <= i < |ps| && ps[i] == t;
      assert Datas(ps)[i] == d;
    }
  }

  /** The history lists exactly the dates of the priorities. */
  lemma DatasHistoricoMembro(ts: seq<Tarefa>, d: string)
    ensures d in DatasHistorico(ts) <==> exists t :: t in ts && t.categoria == Inicio && t.data == d
  {
    var ds := Distintas(Datas(PrioridadesDe(ts)));
    InvertidaMembro(OrdenarTextos(ds), d);
    assert d in OrdenarTextos(ds) <==> d in multiset(ds);
    DatasMembro(ts, d);
  }

  /** The history runs strictly from the newest date to the oldest, so no
      date repeats. */
  lemma DatasHistoricoDecrescente(ts: seq<Tarefa>)
    ensures Decrescente(DatasHistorico(ts))
    ensures NoDup(DatasHistorico(ts))
  {
    var ds := Distintas(Datas(PrioridadesDe(ts)));
    DistintasSemRepeticao(Datas(PrioridadesDe(ts)));
    OrdenarCrescente(ds);
    var h := DatasHistorico(ts);
    forall i, j | 0 <= i < j < |h|
      ensures h[i] != h[j]
    {
      LessIrreflexive(h[i]);
    }
  }

  // ---------------------------------------------------------------------
  // Moving through the history

  /** `irParaDataAnterior`: one step towards older dates when the list has
      one (from a date not in the list that is the newest date). */
  function DataAnterior(datas: seq<string>, atual: string): (r: string)
    ensures atual !in datas && datas != [] ==> r == datas[0]
    ensures datas == [] ==> r == atual
    ensures forall i :: 0 <= i < |datas| && datas[i] == atual && (forall j :: 0 <= j < i ==> datas[j] != atual) ==>
      r == if i + 1 < |datas| then datas[i + 1] else atual
  {
    var i := IndexOf(datas, atual);
    if i < |datas| - 1 then datas[i + 1] else atual
  }

  /** `irParaDataProxima`: one step towards newer dates, never past the
      newest; a date not in the list stays. */
  function DataProxima(datas: seq<string>, atual: string): (r: string)
    ensures atual !in datas ==> r == atual
    ensures forall i :: 0 <= i < |datas| && datas[i] == atual && (forall j :: 0 <= j < i ==> datas[j] != atual) ==>
      r == if i > 0 then datas[i - 1] else atual
  {
    var i := IndexOf(datas, atual);
    if i > 0 then datas[i - 1] else atual
  }

  /** In a list without repetitions a step back then forward returns to
      the date, unless it was the oldest, and forward then back returns
      to it unless it was the newest. */
  lemma IdaEVolta(datas: seq<string>, k: int)
    requires NoDup(datas) && 0 <= k < |datas|
    ensures k + 1 < |datas| ==> DataProxima(datas, DataAnterior(datas, datas[k])) == datas[k]
    ensures k > 0 ==> DataAnterior(datas, DataProxima(datas, datas[k])) == datas[k]
  {
    IndexOfNoDup(datas, k);
    if k + 1 < |datas| {
      IndexOfNoDup(datas, k + 1);
    }
    if k > 0 {
      IndexOfNoDup(datas, k - 1);
    }
  }

  /** On the history, stepping back reaches an older date and stepping
      forward a newer one, whenever the date moves. */
  lemma PassosNaHistoria(datas: seq<string>, k: int)
    requires Decrescente(datas) && 0 <= k < |datas|
    ensures k + 1 < |datas| ==> Less(DataAnterior(datas, datas[k]), datas[k])
    ensures k > 0 ==> Less(datas[k], DataProxima(datas, datas[k]))
  {
    assert NoDup(datas) by {
      forall i, j | 0 <= i < j < |datas|
        ensures datas[i] != datas[j]
      {
        LessIrreflexive(datas[i]);
      }
    }
    IndexOfNoDup(datas, k);
  }

  // ---------------------------------------------------------------------
  // Adding and editing

  /** The guard of `handleAdicionarPrioridade`: some character of the text
      is not whitespace, and fewer than 3 priorities are shown. */
  function PodeAdicionar(texto: string, exibidas: nat): (b: bool)
    ensures b <==> (exists k :: 0 <= k < |texto| && !IsJsWhitespace(texto[k])) && exibidas < 3
  {
    BlankIffAllWhitespace(texto);
    Trim(texto) != "" && exibidas < 3
  }

  /** The task `handleAdicionarPrioridade` asks for: the text as typed,
      not done, category `inicio`, the shown day. */
  function NovaPrioridade(texto: string, dia: string): (n: NovaTarefa)
    ensures n.texto == texto && n.concluida == Some(false) && n.categoria == Inicio && n.data == dia
  {
    NovaTarefa(texto, Some(false), Inicio, dia)
  }

  /** The guard of `salvarEdicao`: an edit is open and its text is not blank. */
  function PodeSalvar(editando: Option<Tarefa>, texto: string): (b: bool)
    ensures b <==> editando.Some? && exists k :: 0 <= k < |texto| && !IsJsWhitespace(texto[k])
  {
    BlankIffAllWhitespace(texto);
    editando.Some? && Trim(texto) != ""
  }

  // ---------------------------------------------------------------------
  // Formatting a date

  /** `partes[k]` interpolated into a template: a missing part reads as
      `"undefined"`. */
  function Parte(partes: seq<string>, k: nat): string {
    if k < |partes| then partes[k] else "undefined"
  }

  /** `formatarData`: the first three `-`-separated parts, reversed and
      joined by `/`. */
  function FormatarData(dataISO: string): string {
    var partes := Split(dataISO, '-');
    Parte(partes, 2) + "/" + Parte(partes, 1) + "/" + Parte(partes, 0)
  }

  /** `Y-M-D` becomes `D/M/Y`. */
  lemma FormatarDataInverte(y: string, m: string, d: string)
    requires '-' !in y && '-' !in m && '-' !in d
    ensures FormatarData(y + "-" + m + "-" + d) == d + "/" + m + "/" + y
  {
    var partes := [y, m, d];
    assert Join(partes, '-') == y + "-" + m + "-" + d by {
      assert partes[1..][1..] == [d];
      assert Join(partes[1..], '-') == m + "-" + d;
    }
    SplitJoin(partes, '-');
  }

  /** A string without `-` has one part, reused in every slot it fills. */
  lemma FormatarDataSemSeparador(s: string)
    requires '-' !in s
    ensures FormatarData(s) == "undefined/undefined/" + s
  {
    assert Split(s, '-') == [s];
  }

  // ---------------------------------------------------------------------
  // The component's state

  /** The state of `ListaPrioridades`, over the task hook it uses. */
  class ListaPrioridades {
    const tarefas: TarefasHook
    var dataAtual: string
    var novoTexto: string
    var tarefaEditando: Option<Tarefa>
    var textoEditando: string

    /** The initial state, with `hoje` the current date (`YYYY-MM-DD`). */
    constructor (tarefas: TarefasHook, hoje: string)
      ensures this.tarefas == tarefas
      ensures dataAtual == hoje && novoTexto == "" && tarefaEditando == None && textoEditando == ""
    {
      this.tarefas := tarefas;
      dataAtual, novoTexto, tarefaEditando, textoEditando := hoje, "", None, "";
    }

    method IrParaDataAnterior()
      modifies this
      ensures dataAtual == DataAnterior(DatasHistorico(tarefas.tarefas), old(dataAtual))
      ensures novoTexto == old(novoTexto) && tarefaEditando == old(tarefaEditando)
      ensures textoEditando == old(textoEditando)
    {
      dataAtual := DataAnterior(DatasHistorico(tarefas.tarefas), dataAtual);
    }

    method IrParaDataProxima()
      modifies this
      ensures dataAtual == DataProxima(DatasHistorico(tarefas.tarefas), old(dataAtual))
      ensures novoTexto == old(novoTexto) && tarefaEditando == old(tarefaEditando)
      ensures textoEditando == old(textoEditando)
    {
      dataAtual := DataProxima(DatasHistorico(tarefas.tarefas), dataAtual);
    }

    /** `voltarParaHoje`, with `hoje` the current date. */
    method VoltarParaHoje(hoje: string)
      modifies this
      ensures dataAtual == hoje
      ensures novoTexto == old(novoTexto) && tarefaEditando == old(tarefaEditando)
      ensures textoEditando == old(textoEditando)
    {
      dataAtual := hoje;
    }

    /** `handleAdicionarPrioridade`: refused (nothing changes) for a blank
        text or a day that already shows 3 priorities; otherwise the new
        priority is requested through the hook, whose reply `resposta`
        decides what is appended, and the input is cleared. */
    method AdicionarPrioridade(user: Option<string>, resposta: Reply<Tarefa>)
      returns (pedido: Option<TarefaInsert>)
      modifies this, tarefas
      ensures dataAtual == old(dataAtual) && tarefaEditando == old(tarefaEditando)
      ensures textoEditando == old(textoEditando) && tarefas.loading == old(tarefas.loading)
      ensures !PodeAdicionar(old(novoTexto), |DoDia(old(tarefas.tarefas), dataAtual)|) ==>
        && pedido == None && novoTexto == old(novoTexto)
        && tarefas.tarefas == old(tarefas.tarefas) && tarefas.error == old(tarefas.error)
      ensures PodeAdicionar(old(novoTexto), |DoDia(old(tarefas.tarefas), dataAtual)|) ==>
        && novoTexto == ""
        && pedido == (if user.Some? then Some(TarefaInsert(NovaPrioridade(old(novoTexto), dataAtual), user.value)) else None)
        && (user.Some? && resposta.Answered? && |resposta.Rows()| > 0 ==>
              tarefas.tarefas == old(tarefas.tarefas) + [resposta.Rows()[0]])
        && (!(user.Some? && resposta.Answered? && |resposta.Rows()| > 0) ==>
              tarefas.tarefas == old(tarefas.tarefas))
        && (user.None? ==> tarefas.error == Some(NaoAutenticado))
        && (user.Some? && resposta.Rejected? ==> tarefas.error == Some(resposta.message))
        && (user.Some? && resposta.Answered? ==> tarefas.error == None)
    {
      if !PodeAdicionar(novoTexto, |DoDia(tarefas.tarefas, dataAtual)|) {
        return None;
      }
      var _, p := tarefas.Adicionar(NovaPrioridade(novoTexto, dataAtual), user, resposta);
      pedido := p;
      novoTexto := "";
    }

    /** `iniciarEdicao`. */
    method IniciarEdicao(t: Tarefa)
      modifies this
      ensures tarefaEditando == Some(t) && textoEditando == t.texto
      ensures dataAtual == old(dataAtual) && novoTexto == old(novoTexto)
    {
      tarefaEditando, textoEditando := Some(t), t.texto;
    }

    /** `salvarEdicao`: with an open edit and a non-blank text, the update
        `{ texto }` of that task is sent through the hook, whose reply
        `resposta` decides what changes, and the edit is closed; otherwise
        nothing changes. */
    method SalvarEdicao(resposta: Reply<Tarefa>) returns (pedido: Option<(string, TarefaPatch)>)
      modifies this, tarefas
      ensures dataAtual == old(dataAtual) && novoTexto == old(novoTexto)
      ensures textoEditando == old(textoEditando) && tarefas.loading == old(tarefas.loading)
      ensures !PodeSalvar(old(tarefaEditando), textoEditando) ==>
        && pedido == None && tarefaEditando == old(tarefaEditando)
        && tarefas.tarefas == old(tarefas.tarefas) && tarefas.error == old(tarefas.error)
      ensures PodeSalvar(old(tarefaEditando), textoEditando) ==>
        && tarefaEditando == None
        && pedido == Some((old(tarefaEditando).value.id, PatchVazio.(texto := Some(textoEditando))))
        && (resposta.Answered? && |resposta.Rows()| > 0 ==>
              tarefas.tarefas == Atualizadas(old(tarefas.tarefas), old(tarefaEditando).value.id, resposta.Rows()[0]))
        && (!(resposta.Answered? && |resposta.Rows()| > 0) ==> tarefas.tarefas == old(tarefas.tarefas))
        && (resposta.Answered? ==> tarefas.error == None)
        && (resposta.Rejected? ==> tarefas.error == Some(resposta.message))
    {
      if !PodeSalvar(tarefaEditando, textoEditando) {
        return None;
      }
      var id := tarefaEditando.value.id;
      pedido := Some((id, PatchVazio.(texto := Some(textoEditando))));
      var _ := tarefas.Atualizar(id, resposta);
      tarefaEditando := None;
    }

    /** `cancelarEdicao`. */
    method CancelarEdicao()
      modifies this
      ensures tarefaEditando == None
      ensures dataAtual == old(dataAtual) && novoTexto == old(novoTexto) && textoEditando == old(textoEditando)
    {
      tarefaEditando := None;
    }
  }
}
