/** The medication hook (app/hooks/useMedicacoes.ts): assembling each
    medication with its dose times and the map of doses taken, the choice
    between updating and inserting a dose record, the local map update
    that follows it, and the local removal. */
module Medicacoes {
  import opened Wrappers
  import opened Seqs
  import opened Tipos

  // ---------------------------------------------------------------------
  // Dose keys and the map of doses taken

  /** The key `${data}-${horario}` of a dose. */
  function Chave(data: string, horario: string): string {
    data + "-" + horario
  }

  function ChaveDe(t: MedicacaoTomada): string {
    Chave(t.data, t.horario)
  }

  /** Dates of one width (`YYYY-MM-DD`) make the key unambiguous: two keys
      agree exactly when their dates and their times agree. */
  lemma ChaveInjetiva(d1: string, h1: string, d2: string, h2: string)
    requires |d1| == |d2|
    ensures Chave(d1, h1) == Chave(d2, h2) <==> d1 == d2 && h1 == h2
  {
    if Chave(d1, h1) == Chave(d2, h2) {
      assert d1 == Chave(d1, h1)[..|d1|];
      assert d2 == Chave(d2, h2)[..|d2|];
      assert h1 == Chave(d1, h1)[|d1| + 1..];
      assert h2 == Chave(d2, h2)[|d2| + 1..];
    }
  }

  /** `horariosData?.map(h => h.horario) || []`. */
  function Horarios(linhas: Option<seq<HorarioLinha>>): (r: seq<string>)
    ensures linhas.None? ==> r == []
    ensures linhas.Some? ==>
      |r| == |linhas.value| && forall i :: 0 <= i < |r| ==> r[i] == linhas.value[i].horario
  {
    match linhas
    case None => []
    case Some(hs) => seq(|hs|, i requires 0 <= i < |hs| => hs[i].horario)
  }

  /** The map `tomadas` after the rows were visited in order, each writing
      its `tomada` at its key. */
  function Tomadas(rows: seq<MedicacaoTomada>): map<string, bool> {
    if rows == [] then map[]
    else Tomadas(rows[..|rows| - 1])[ChaveDe(rows[|rows| - 1]) := rows[|rows| - 1].tomada]
  }

  /** The position of the last row with key `k`, or -1. */
  function UltimaCom(rows: seq<MedicacaoTomada>, k: string): (i: int)
    ensures -1 <= i < |rows|
    ensures i == -1 <==> forall j :: 0 <= j < |rows| ==> ChaveDe(rows[j]) != k
    ensures 0 <= i ==> ChaveDe(rows[i]) == k && forall j :: i < j < |rows| ==> ChaveDe(rows[j]) != k
  {
    if rows == [] then -1
    else if ChaveDe(rows[|rows| - 1]) == k then |rows| - 1
    else UltimaCom(rows[..|rows| - 1], k)
  }

  /** The map has a key exactly when some row has it, and then holds the
      `tomada` of the last such row: a later row overwrites an earlier one. */
  lemma {:induction false} TomadasUltima(rows: seq<MedicacaoTomada>, k: string)
    ensures k in Tomadas(rows) <==> UltimaCom(rows, k) >= 0
    ensures k in Tomadas(rows) ==> Tomadas(rows)[k] == rows[UltimaCom(rows, k)].tomada
  {
    if rows != [] {
      TomadasUltima(rows[..|rows| - 1], k);
    }
  }

  /** The `forEach` filling `tomadas` (a null `tomadasData` visits nothing). */
  method MapaTomadas(linhas: Option<seq<MedicacaoTomada>>) returns (tomadas: map<string, bool>)
    ensures tomadas == Tomadas(linhas.GetOr([]))
  {
    var rows := linhas.GetOr([]);
    tomadas := map[];
    var i := 0;
    while i < |rows|
      invariant 0 <= i <= |rows|
      invariant tomadas == Tomadas(rows[..i])
    {
      assert rows[..i + 1][..i] == rows[..i];
      tomadas := tomadas[ChaveDe(rows[i]) := rows[i].tomada];
      i := i + 1;
    }
    assert rows[..|rows|] == rows;
  }

  // ---------------------------------------------------------------------
  // Loading

  /** The replies to the two queries made for one medication: its dose
      times, and its doses of the last seven days. */
  datatype Detalhes = Detalhes(horarios: Reply<HorarioLinha>, tomadas: Reply<MedicacaoTomada>)

  /** The message of the first of the two queries that failed, if any. */
  function Falha(d: Detalhes): (r: Option<string>)
    ensures r.None? <==> d.horarios.Answered? && d.tomadas.Answered?
  {
    if d.horarios.Rejected? then Some(d.horarios.message)
    else if d.tomadas.Rejected? then Some(d.tomadas.message)
    else None
  }

  /** `{ ...medicacao, horarios, tomadas }`. */
  function Completa(m: Medicacao, d: Detalhes): MedicacaoComHorarios
    requires Falha(d).None?
  {
    MedicacaoComHorarios(m, Horarios(d.horarios.data), Tomadas(d.tomadas.Rows()))
  }

  /** What `Promise.all(medicacoesData.map(...))` yields: every medication
      completed, in order, or the message of the first one whose queries
      failed. */
  datatype Carga = Carregadas(meds: seq<MedicacaoComHorarios>) | Falhou(message: string)

  function Completas(rows: seq<Medicacao>, buscar: Medicacao -> Detalhes): (c: Carga)
    ensures c.Carregadas? <==> forall i :: 0 <= i < |rows| ==> Falha(buscar(rows[i])).None?
    ensures c.Carregadas? ==>
      |c.meds| == |rows| && forall i :: 0 <= i < |rows| ==> c.meds[i] == Completa(rows[i], buscar(rows[i]))
    ensures c.Falhou? ==>
      exists i :: 0 <= i < |rows| && Falha(buscar(rows[i])) == Some(c.message) &&
        (forall j :: 0 <= j < i ==> Falha(buscar(rows[j])).None?)
  {
    if rows == [] then Carregadas([])
    else
      var d := buscar(rows[0]);
      match Falha(d)
      case Some(msg) => Falhou(msg)
      case None =>
        var resto := Completas(rows[1..], buscar);
        assert forall i :: 1 <= i < |rows| ==> rows[i] == rows[1..][i - 1];
        match resto
        case Falhou(msg) =>
          var i :| 0 <= i < |rows[1..]| && Falha(buscar(rows[1..][i])) == Some(msg) &&
            forall j :: 0 <= j < i ==> Falha(buscar(rows[1..][j])).None?;
          assert Falha(buscar(rows[i + 1])) == Some(msg);
          Falhou(msg)
        case Carregadas(ms) => Carregadas([Completa(rows[0], d)] + ms)
  }

  /** The `map` over the medications, each completed with its dose times
      and its map of doses. */
  method CompletarTodas(rows: seq<Medicacao>, buscar: Medicacao -> Detalhes) returns (c: Carga)
    ensures c == Completas(rows, buscar)
  {
    var acc: seq<MedicacaoComHorarios> := [];
    var i := 0;
    while i < |rows|
      invariant 0 <= i <= |rows|
      invariant |acc| == i
      invariant forall j :: 0 <= j < i ==> Falha(buscar(rows[j])).None?
      invariant forall j :: 0 <= j < i ==> acc[j] == Completa(rows[j], buscar(rows[j]))
    {
      var d := buscar(rows[i]);
      if d.horarios.Rejected? {
        return Falhou(d.horarios.message);
      }
      if d.tomadas.Rejected? {
        return Falhou(d.tomadas.message);
      }
      var horarios := Horarios(d.horarios.data);
      var tomadas := MapaTomadas(d.tomadas.data);
      acc := acc + [MedicacaoComHorarios(rows[i], horarios, tomadas)];
      i := i + 1;
    }
    return Carregadas(acc);
  }

  // ---------------------------------------------------------------------
  // Registering a dose

  /** The write `registrarTomadaMedicacao` sends: an update of an existing
      dose row, or the insert of a new one; `tomadaEm` is the current
      instant when the dose was taken, null otherwise. */
  datatype Escrita =
    | AtualizarTomada(id: string, tomada: bool, tomadaEm: Option<string>)
    | InserirTomada(medicacaoId: string, data: string, horario: string, tomada: bool, tomadaEm: Option<string>)

  /** With `existentes` the rows found for (medication, date, time): the
      first of them is updated when there is one, otherwise one row is
      inserted for that medication, date and time. `agora` is the instant
      `new Date().toISOString()` gives. */
  function EscolherEscrita(existentes: seq<MedicacaoTomada>, medicacaoId: string, data: string,
                           horario: string, tomada: bool, agora: string): (w: Escrita)
    ensures w.AtualizarTomada? <==> |existentes| > 0
    ensures w.AtualizarTomada? ==> w.id == existentes[0].id
    ensures w.InserirTomada? ==> w.medicacaoId == medicacaoId && w.data == data && w.horario == horario
    ensures w.tomada == tomada
    ensures w.tomadaEm == if tomada then Some(agora) else None
  {
    var em := if tomada then Some(agora) else None;
    if |existentes| > 0 then AtualizarTomada(existentes[0].id, tomada, em)
    else InserirTomada(medicacaoId, data, horario, tomada, em)
  }

  /** `prev.map(med => med.id === medicacaoId ? { ...med, tomadas: { ...med.tomadas, [chave]: tomada } } : med)`:
      the medications with that id now map `chave` to `tomada` and keep
      every other key, their dose times and their row; every other
      medication is unchanged. */
  function ComTomada(ms: seq<MedicacaoComHorarios>, id: string, chave: string, tomada: bool)
    : (r: seq<MedicacaoComHorarios>)
    ensures |r| == |ms|
    ensures forall i :: 0 <= i < |ms| && ms[i].med.id != id ==> r[i] == ms[i]
    ensures forall i :: 0 <= i < |ms| && ms[i].med.id == id ==>
      && r[i].med == ms[i].med && r[i].horarios == ms[i].horarios
      && chave in r[i].tomadas && r[i].tomadas[chave] == tomada
      && (forall k :: k != chave ==> (k in r[i].tomadas <==> k in ms[i].tomadas))
      && (forall k :: k != chave && k in ms[i].tomadas ==> r[i].tomadas[k] == ms[i].tomadas[k])
  {
    MapWhere(ms, (m: MedicacaoComHorarios) => m.med.id == id,
             (m: MedicacaoComHorarios) => m.(tomadas := m.tomadas[chave := tomada]))
  }

  /** Registering the same dose twice in a row leaves what one
      registration leaves. */
  lemma ComTomadaIdempotente(ms: seq<MedicacaoComHorarios>, id: string, chave: string, tomada: bool)
    ensures ComTomada(ComTomada(ms, id, chave, tomada), id, chave, tomada) == ComTomada(ms, id, chave, tomada)
  {
    var r := ComTomada(ms, id, chave, tomada);
    var r2 := ComTomada(r, id, chave, tomada);
    forall i | 0 <= i < |ms|
      ensures r2[i] == r[i]
    {
      if ms[i].med.id == id {
        assert r[i].tomadas[chave := tomada] == r[i].tomadas;
      }
    }
  }

  /** The test removal applies: the medications with another id stay. */
  function OutraMedicacao(id: string): MedicacaoComHorarios -> bool {
    (m: MedicacaoComHorarios) => m.med.id != id
  }

  /** `prev.filter(med => med.id !== id)`: every medication with another id is kept
      as many times as it occurs, none with that id is, and the order is
      kept (`SemMedicacaoOrdem`). */
  function SemMedicacao(ms: seq<MedicacaoComHorarios>, id: string): (r: seq<MedicacaoComHorarios>)
    ensures forall m :: m in r <==> m in ms && m.med.id != id
    ensures forall m :: multiset(r)[m] == if m.med.id != id then multiset(ms)[m] else 0
    ensures |r| <= |ms|
  {
    var r := Filter(ms, OutraMedicacao(id));
    forall m
      ensures multiset(r)[m] == if m.med.id != id then multiset(ms)[m] else 0
    {
      FilterMultiset(ms, OutraMedicacao(id), m);
    }
    r
  }

  /** Removal works piece by piece in list order: on a concatenation it is
      the concatenation of the removals, and a single medication is kept or dropped. */
  lemma SemMedicacaoOrdem(a: seq<MedicacaoComHorarios>, b: seq<MedicacaoComHorarios>, id: string)
    ensures SemMedicacao(a + b, id) == SemMedicacao(a, id) + SemMedicacao(b, id)
    ensures forall m :: SemMedicacao([m], id) == if m.med.id != id then [m] else []
  {
    FilterConcat(a, b, OutraMedicacao(id));
  }

  // ---------------------------------------------------------------------
  // The hook's state

  /** The state `useMedicacoes` keeps. */
  class MedicacoesHook {
    var medicacoes: seq<MedicacaoComHorarios>
    var loading: bool
    var error: Option<string>

    constructor ()
      ensures medicacoes == [] && loading && error == None
    {
      medicacoes, loading, error := [], true, None;
    }

    /** `carregarMedicacoes`: `resposta` answers the query for the user's
        medications ordered by name, and `buscar` gives the replies of the
        two queries made for each. None found empties the list; otherwise
        the list becomes every medication completed, in order, unless one
        of the queries failed, which keeps the list and records the
        message. */
    method Carregar(user: Option<string>, resposta: Reply<Medicacao>, buscar: Medicacao -> Detalhes)
      modifies this
      ensures !loading
      ensures user.None? ==> medicacoes == old(medicacoes) && error == Some(NaoAutenticado)
      ensures user.Some? && resposta.Rejected? ==>
        medicacoes == old(medicacoes) && error == Some(resposta.message)
      ensures user.Some? && resposta.Answered? && resposta.Rows() == [] ==>
        medicacoes == [] && error == None
      ensures user.Some? && resposta.Answered? && resposta.Rows() != [] ==>
        match Completas(resposta.Rows(), buscar)
        case Carregadas(ms) => medicacoes == ms && error == None
        case Falhou(msg) => medicacoes == old(medicacoes) && error == Some(msg)
    {
      loading, error := true, None;
      if user.None? {
        error := Some(NaoAutenticado);
      } else if resposta.Rejected? {
        error := Some(resposta.message);
      } else if resposta.Rows() == [] {
        medicacoes := [];
      } else {
        var c := CompletarTodas(resposta.Rows(), buscar);
        match c
        case Carregadas(ms) =>
          medicacoes := ms;
        case Falhou(msg) =>
          error := Some(msg);
      }
      loading := false;
    }

    /** `removerMedicacao`. */
    method Remover(id: string, resposta: Ack) returns (ok: bool)
      modifies this
      ensures loading == old(loading)
      ensures ok <==> resposta.Acked?
      ensures resposta.Acked? ==> medicacoes == SemMedicacao(old(medicacoes), id) && error == None
      ensures resposta.Refused? ==> medicacoes == old(medicacoes) && error == Some(resposta.message)
    {
      error := None;
      if resposta.Refused? {
        error := Some(resposta.message);
        return false;
      }
      medicacoes := SemMedicacao(medicacoes, id);
      return true;
    }

    /** `registrarTomadaMedicacao`: `consulta` answers the lookup of the
        dose rows for (medication, date, time) and `escrita` the write that
        follows, which is returned as `pedido`. When both succeed the
        medication's map records the dose locally; a failure at either
        step keeps the list and records the message. */
    method RegistrarTomada(medicacaoId: string, data: string, horario: string, tomada: bool,
                           agora: string, consulta: Reply<MedicacaoTomada>, escrita: Ack)
      returns (ok: bool, pedido: Option<Escrita>)
      modifies this
      ensures loading == old(loading)
      ensures consulta.Rejected? ==>
        !ok && pedido == None && medicacoes == old(medicacoes) && error == Some(consulta.message)
      ensures consulta.Answered? ==>
        pedido == Some(EscolherEscrita(consulta.Rows(), medicacaoId, data, horario, tomada, agora))
      ensures consulta.Answered? && escrita.Refused? ==>
        !ok && medicacoes == old(medicacoes) && error == Some(escrita.message)
      ensures consulta.Answered? && escrita.Acked? ==>
        ok && medicacoes == ComTomada(old(medicacoes), medicacaoId, Chave(data, horario), tomada) && error == None
    {
      error := None;
      if consulta.Rejected? {
        error := Some(consulta.message);
        return false, None;
      }
      pedido := Some(EscolherEscrita(consulta.Rows(), medicacaoId, data, horario, tomada, agora));
      if escrita.Refused? {
        error := Some(escrita.message);
        return false, pedido;
      }
      medicacoes := ComTomada(medicacoes, medicacaoId, Chave(data, horario), tomada);
      return true, pedido;
    }
  }
}
