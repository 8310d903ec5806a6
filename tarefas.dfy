/** The task hook (app/hooks/useTarefas.ts): the local list of tasks and
    how each operation changes it once the database has answered. */
module Tarefas {
  import opened Wrappers
  import opened Seqs
  import opened Tipos

  /** `prev.map(t => t.id === id ? { ...t, ...row } : t)` with `row` the
      full row the update returned: the tasks with that id become `row`,
      every other task and the length are kept. */
  function Atualizadas(ts: seq<Tarefa>, id: string, row: Tarefa): (r: seq<Tarefa>)
    ensures |r| == |ts|
    ensures forall i :: 0 <= i < |ts| ==> r[i] == if ts[i].id == id then row else ts[i]
  {
    MesclarTarefaExtremos(row, row);
    var r := MapWhere(ts, (t: Tarefa) => t.id == id, (t: Tarefa) => MesclarTarefa(t, PatchCompleto(row)));
    forall i | 0 <= i < |ts| && ts[i].id == id
      ensures r[i] == row
    {
      MesclarTarefaExtremos(ts[i], row);
    }
    r
  }

  /** The test removal applies: the tasks with another id stay. */
  function OutraTarefa(id: string): Tarefa -> bool {
    (t: Tarefa) => t.id != id
  }

  /** `prev.filter(tarefa => tarefa.id !== id)`: every task with another id is kept
      as many times as it occurs, none with that id is, and the order is
      kept (`SemTarefaOrdem`). */
  function SemTarefa(ts: seq<Tarefa>, id: string): (r: seq<Tarefa>)
    ensures forall t :: t in r <==> t in ts && t.id != id
    ensures forall t :: multiset(r)[t] == if t.id != id then multiset(ts)[t] else 0
    ensures |r| <= |ts|
  {
    var r := Filter(ts, OutraTarefa(id));
    forall t
      ensures multiset(r)[t] == if t.id != id then multiset(ts)[t] else 0
    {
      FilterMultiset(ts, OutraTarefa(id), t);
    }
    r
  }

  /** Removal works piece by piece in list order: on a concatenation it is
      the concatenation of the removals, and a single task is kept or dropped. */
  lemma SemTarefaOrdem(a: seq<Tarefa>, b: seq<Tarefa>, id: string)
    ensures SemTarefa(a + b, id) == SemTarefa(a, id) + SemTarefa(b, id)
    ensures forall t :: SemTarefa([t], id) == if t.id != id then [t] else []
  {
    FilterConcat(a, b, OutraTarefa(id));
  }

  /** `tarefas.find(t => t.id === id)`: the first task with that id. */
  function Encontrar(ts: seq<Tarefa>, id: string): (r: Option<Tarefa>)
    ensures r.None? <==> forall i :: 0 <= i < |ts| ==> ts[i].id != id
    ensures r.Some? ==>
      r.value.id == id &&
      exists k :: 0 <= k < |ts| && ts[k] == r.value && (forall j :: 0 <= j < k ==> ts[j].id != id)
  {
    var k := FindFirst(ts, (t: Tarefa) => t.id == id);
    if k == -1 then None else Some(ts[k])
  }

  /** The update `alternarTarefaConcluida` sends: `{ concluida: !tarefa.concluida }`. */
  function PedidoAlternar(t: Tarefa): (p: TarefaPatch)
    ensures MesclarTarefa(t, p).concluida == !t.concluida
    ensures MesclarTarefa(t, p) == t.(concluida := !t.concluida)
  {
    PatchVazio.(concluida := Some(!t.concluida))
  }

  /** Applying the toggle twice restores the task. */
  lemma AlternarDuasVezes(t: Tarefa)
    ensures
      var t1 := MesclarTarefa(t, PedidoAlternar(t));
      MesclarTarefa(t1, PedidoAlternar(t1)) == t
  {
  }

  /** Updating an id no task has changes nothing. */
  lemma AtualizarSemAlvo(ts: seq<Tarefa>, id: string, row: Tarefa)
    requires forall i :: 0 <= i < |ts| ==> ts[i].id != id
    ensures Atualizadas(ts, id, row) == ts
  {
  }

  /** Removing an id no task has changes nothing. */
  lemma {:induction false} RemoverSemAlvo(ts: seq<Tarefa>, id: string)
    requires forall i :: 0 <= i < |ts| ==> ts[i].id != id
    ensures SemTarefa(ts, id) == ts
  {
    FilterAllPass(ts, OutraTarefa(id));
  }

  /** The state `useTarefas` keeps. */
  class TarefasHook {
    var tarefas: seq<Tarefa>
    var loading: bool
    var error: Option<string>

    constructor ()
      ensures tarefas == [] && loading && error == None
    {
      tarefas, loading, error := [], true, None;
    }

    /** `carregarTarefas`: the list becomes the returned rows (none for a
        null `data`); a failed query keeps it and records the message. */
    method Carregar(resposta: Reply<Tarefa>)
      modifies this
      ensures !loading
      ensures resposta.Answered? ==> tarefas == resposta.Rows() && error == None
      ensures resposta.Rejected? ==> tarefas == old(tarefas) && error == Some(resposta.message)
    {
      loading, error := true, None;
      if resposta.Rejected? {
        error := Some(resposta.message);
      } else {
        tarefas := resposta.Rows();
      }
      loading := false;
    }

    /** `adicionarTarefa`: with a signed-in user it sends `pedido`, the new
        task with the user as owner; when the insert returns at least one
        row the first is appended and returned, otherwise nothing changes
        and null is returned. No user, or a failed insert, records the
        message. */
    method Adicionar(nova: NovaTarefa, user: Option<string>, resposta: Reply<Tarefa>)
      returns (r: Option<Tarefa>, pedido: Option<TarefaInsert>)
      modifies this
      ensures loading == old(loading)
      ensures pedido == if user.Some? then Some(TarefaInsert(nova, user.value)) else None
      ensures user.None? ==> r == None && tarefas == old(tarefas) && error == Some(NaoAutenticado)
      ensures user.Some? && resposta.Rejected? ==>
        r == None && tarefas == old(tarefas) && error == Some(resposta.message)
      ensures user.Some? && resposta.Answered? && |resposta.Rows()| > 0 ==>
        r == Some(resposta.Rows()[0]) && tarefas == old(tarefas) + [resposta.Rows()[0]] && error == None
      ensures user.Some? && resposta.Answered? && resposta.Rows() == [] ==>
        r == None && tarefas == old(tarefas) && error == None
    {
      error := None;
      if user.None? {
        error := Some(NaoAutenticado);
        return None, None;
      }
      pedido := Some(TarefaInsert(nova, user.value));
      if resposta.Rejected? {
        error := Some(resposta.message);
        return None, pedido;
      }
      var rows := resposta.Rows();
      if |rows| > 0 {
        tarefas := tarefas + [rows[0]];
        return Some(rows[0]), pedido;
      }
      return None, pedido;
    }

    /** `atualizarTarefa(id, updates)`: `resposta` answers the update the
        caller's `updates` describe. When it returns a row, the tasks with
        that id take the row's fields and true is returned; no row gives
        false and no change; a failed update records the message. */
    method Atualizar(id: string, resposta: Reply<Tarefa>) returns (ok: bool)
      modifies this
      ensures loading == old(loading)
      ensures ok <==> resposta.Answered? && |resposta.Rows()| > 0
      ensures ok ==> tarefas == Atualizadas(old(tarefas), id, resposta.Rows()[0]) && error == None
      ensures resposta.Answered? && resposta.Rows() == [] ==> tarefas == old(tarefas) && error == None
      ensures resposta.Rejected? ==> tarefas == old(tarefas) && error == Some(resposta.message)
    {
      error := None;
      if resposta.Rejected? {
        error := Some(resposta.message);
        return false;
      }
      var rows := resposta.Rows();
      if |rows| > 0 {
        tarefas := Atualizadas(tarefas, id, rows[0]);
        return true;
      }
      return false;
    }

    /** `removerTarefa`: once the delete succeeds the tasks with that id
        leave the list, the others keep their order. */
    method Remover(id: string, resposta: Ack) returns (ok: bool)
      modifies this
      ensures loading == old(loading)
      ensures ok <==> resposta.Acked?
      ensures resposta.Acked? ==> tarefas == SemTarefa(old(tarefas), id) && error == None
      ensures resposta.Refused? ==> tarefas == old(tarefas) && error == Some(resposta.message)
    {
      error := None;
      if resposta.Refused? {
        error := Some(resposta.message);
        return false;
      }
      tarefas := SemTarefa(tarefas, id);
      return true;
    }

    /** `alternarTarefaConcluida`: an id no task has gives false and
        touches nothing, not even `error`; otherwise it sends `pedido`,
        the first such task's flag negated, and proceeds as `Atualizar`. */
    method Alternar(id: string, resposta: Reply<Tarefa>) returns (ok: bool, pedido: Option<TarefaPatch>)
      modifies this
      ensures loading == old(loading)
      ensures Encontrar(old(tarefas), id).None? ==>
        !ok && pedido == None && tarefas == old(tarefas) && error == old(error)
      ensures Encontrar(old(tarefas), id).Some? ==>
        && pedido == Some(PedidoAlternar(Encontrar(old(tarefas), id).value))
        && (ok <==> resposta.Answered? && |resposta.Rows()| > 0)
        && (ok ==> tarefas == Atualizadas(old(tarefas), id, resposta.Rows()[0]) && error == None)
        && (!ok ==> tarefas == old(tarefas))
        && (resposta.Answered? ==> error == None)
        && (resposta.Rejected? ==> error == Some(resposta.message))
    {
      var t := Encontrar(tarefas, id);
      if t.None? {
        return false, None;
      }
      pedido := Some(PedidoAlternar(t.value));
      ok := Atualizar(id, resposta);
    }
  }
}
