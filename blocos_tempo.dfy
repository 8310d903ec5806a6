/** The time-block hook (app/hooks/useBlocosTempo.ts): the local list of
    the day's time blocks and how each operation changes it once the
    database has answered. */
module BlocosTempo {
  import opened Wrappers
  import opened Seqs
  import opened Tipos

  /** `prev.map(b => b.id === id ? { ...b, ...row } : b)`: the blocks with
      that id become the returned row, every other block and the length
      are kept. */
  function Atualizados(bs: seq<BlocoTempo>, id: string, row: BlocoTempo): (r: seq<BlocoTempo>)
    ensures |r| == |bs|
    ensures forall i :: 0 <= i < |bs| ==> r[i] == if bs[i].id == id then row else bs[i]
  {
    var r := MapWhere(bs, (b: BlocoTempo) => b.id == id, (b: BlocoTempo) => MesclarBloco(b, PatchBlocoCompleto(row)));
    forall i | 0 <= i < |bs| && bs[i].id == id
      ensures r[i] == row
    {
      MesclarBlocoCompleto(bs[i], row);
    }
    r
  }

  /** The test removal applies: the blocks with another id stay. */
  function OutroBloco(id: string): BlocoTempo -> bool {
    (b: BlocoTempo) => b.id != id
  }

  /** `prev.filter(bloco => bloco.id !== id)`: every block with another id is kept
      as many times as it occurs, none with that id is, and the order is
      kept (`SemBlocoOrdem`). */
  function SemBloco(bs: seq<BlocoTempo>, id: string): (r: seq<BlocoTempo>)
    ensures forall b :: b in r <==> b in bs && b.id != id
    ensures forall b :: multiset(r)[b] == if b.id != id then multiset(bs)[b] else 0
    ensures |r| <= |bs|
  {
    var r := Filter(bs, OutroBloco(id));
    forall b
      ensures multiset(r)[b] == if b.id != id then multiset(bs)[b] else 0
    {
      FilterMultiset(bs, OutroBloco(id), b);
    }
    r
  }

  /** Removal works piece by piece in list order: on a concatenation it is
      the concatenation of the removals, and a single block is kept or dropped. */
  lemma SemBlocoOrdem(a: seq<BlocoTempo>, b: seq<BlocoTempo>, id: string)
    ensures SemBloco(a + b, id) == SemBloco(a, id) + SemBloco(b, id)
    ensures forall b :: SemBloco([b], id) == if b.id != id then [b] else []
  {
    FilterConcat(a, b, OutroBloco(id));
  }

  /** Removing an id twice is removing it once. */
  lemma {:induction false} SemBlocoIdempotente(bs: seq<BlocoTempo>, id: string)
    ensures SemBloco(SemBloco(bs, id), id) == SemBloco(bs, id)
  {
    var r := SemBloco(bs, id);
    FilterAllPass(r, OutroBloco(id));
  }

  /** The state `useBlocosTempo` keeps. */
  class BlocosTempoHook {
    var blocosTempo: seq<BlocoTempo>
    var loading: bool
    var error: Option<string>

    constructor ()
      ensures blocosTempo == [] && loading && error == None
    {
      blocosTempo, loading, error := [], true, None;
    }

    /** `carregarBlocosTempo(data?)`: `resposta` answers the query for the
        user's blocks (of the day `data`, when given) ordered by hour. The
        list becomes its rows, or empty when `data` is null; no user or a
        failed query keeps it and records the message. */
    method Carregar(user: Option<string>, resposta: Reply<BlocoTempo>)
      modifies this
      ensures !loading
      ensures user.None? ==> blocosTempo == old(blocosTempo) && error == Some(NaoAutenticado)
      ensures user.Some? && resposta.Rejected? ==>
        blocosTempo == old(blocosTempo) && error == Some(resposta.message)
      ensures user.Some? && resposta.Answered? ==> blocosTempo == resposta.Rows() && error == None
    {
      loading, error := true, None;
      if user.None? {
        error := Some(NaoAutenticado);
      } else if resposta.Rejected? {
        error := Some(resposta.message);
      } else {
        blocosTempo := resposta.Rows();
      }
      loading := false;
    }

    /** `adicionarBlocoTempo`: it sends `pedido`, the new block with the
        user as owner; the first returned row is appended and returned, or
        null is returned with no change when the insert returns none. */
    method Adicionar(novo: NovoBloco, user: Option<string>, resposta: Reply<BlocoTempo>)
      returns (r: Option<BlocoTempo>, pedido: Option<BlocoInsert>)
      modifies this
      ensures loading == old(loading)
      ensures pedido == if user.Some? then Some(BlocoInsert(novo, user.value)) else None
      ensures user.None? ==> r == None && blocosTempo == old(blocosTempo) && error == Some(NaoAutenticado)
      ensures user.Some? && resposta.Rejected? ==>
        r == None && blocosTempo == old(blocosTempo) && error == Some(resposta.message)
      ensures user.Some? && resposta.Answered? && |resposta.Rows()| > 0 ==>
        && r == Some(resposta.Rows()[0])
        && blocosTempo == old(blocosTempo) + [resposta.Rows()[0]]
        && error == None
      ensures user.Some? && resposta.Answered? && resposta.Rows() == [] ==>
        r == None && blocosTempo == old(blocosTempo) && error == None
    {
      error := None;
      if user.None? {
        error := Some(NaoAutenticado);
        return None, None;
      }
      pedido := Some(BlocoInsert(novo, user.value));
      if resposta.Rejected? {
        error := Some(resposta.message);
        return None, pedido;
      }
      var rows := resposta.Rows();
      if |rows| > 0 {
        blocosTempo := blocosTempo + [rows[0]];
        return Some(rows[0]), pedido;
      }
      return None, pedido;
    }

    /** `atualizarBlocoTempo(id, updates)`: when the update returns a row
        the blocks with that id take it and true is returned; no row gives
        false with no change. */
    method Atualizar(id: string, resposta: Reply<BlocoTempo>) returns (ok: bool)
      modifies this
      ensures loading == old(loading)
      ensures ok <==> resposta.Answered? && |resposta.Rows()| > 0
      ensures ok ==> blocosTempo == Atualizados(old(blocosTempo), id, resposta.Rows()[0]) && error == None
      ensures resposta.Answered? && resposta.Rows() == [] ==> blocosTempo == old(blocosTempo) && error == None
      ensures resposta.Rejected? ==> blocosTempo == old(blocosTempo) && error == Some(resposta.message)
    {
      error := None;
      if resposta.Rejected? {
        error := Some(resposta.message);
        return false;
      }
      var rows := resposta.Rows();
      if |rows| > 0 {
        blocosTempo := Atualizados(blocosTempo, id, rows[0]);
        return true;
      }
      return false;
    }

    /** `removerBlocoTempo`. */
    method Remover(id: string, resposta: Ack) returns (ok: bool)
      modifies this
      ensures loading == old(loading)
      ensures ok <==> resposta.Acked?
      ensures resposta.Acked? ==> blocosTempo == SemBloco(old(blocosTempo), id) && error == None
      ensures resposta.Refused? ==> blocosTempo == old(blocosTempo) && error == Some(resposta.message)
    {
      error := None;
      if resposta.Refused? {
        error := Some(resposta.message);
        return false;
      }
      blocosTempo := SemBloco(blocosTempo, id);
      return true;
    }
  }
}
