/** The rows of the tables the hooks read and write, as declared in
    app/types/supabase-types.ts, and the record spread `{ ...a, ...b }`
    the hooks use to merge a returned row into a local one. */
module Tipos {
  import opened Wrappers

  /** The `categoria` column; tasks never take `Nenhuma`, time blocks may. */
  datatype Categoria = Inicio | Alimentacao | Estudos | Saude | Lazer | Nenhuma

  type CategoriaTarefa = c: Categoria | c != Nenhuma witness Inicio

  /** A row of `tarefas`. */
  datatype Tarefa = Tarefa(
    id: string, userId: string, texto: string, concluida: bool,
    categoria: CategoriaTarefa, data: string, createdAt: string, updatedAt: string)

  /** `Partial<Tarefa>`: the fields an update sends, or a returned row whose
      absent fields leave a spread target untouched. */
  datatype TarefaPatch = TarefaPatch(
    id: Option<string>, userId: Option<string>, texto: Option<string>,
    concluida: Option<bool>, categoria: Option<CategoriaTarefa>, data: Option<string>,
    createdAt: Option<string>, updatedAt: Option<string>)

  const PatchVazio: TarefaPatch :=
    TarefaPatch(None, None, None, None, None, None, None, None)

  /** The fields of a new task the caller supplies
      (`Omit<TarefaInsert, 'user_id'>`). */
  datatype NovaTarefa = NovaTarefa(
    texto: string, concluida: Option<bool>, categoria: CategoriaTarefa, data: string)

  /** The row sent to `insert`: the new task's fields plus the owner. */
  datatype TarefaInsert = TarefaInsert(nova: NovaTarefa, userId: string)

  /** `{ ...t, ...p }`: every field `p` carries wins, the rest stay. */
  function MesclarTarefa(t: Tarefa, p: TarefaPatch): Tarefa {
    Tarefa(
      p.id.GetOr(t.id), p.userId.GetOr(t.userId), p.texto.GetOr(t.texto),
      p.concluida.GetOr(t.concluida), p.categoria.GetOr(t.categoria),
      p.data.GetOr(t.data), p.createdAt.GetOr(t.createdAt), p.updatedAt.GetOr(t.updatedAt))
  }

  /** A patch that carries every field of `row` (a full returned row). */
  function PatchCompleto(row: Tarefa): TarefaPatch {
    TarefaPatch(
      Some(row.id), Some(row.userId), Some(row.texto), Some(row.concluida),
      Some(row.categoria), Some(row.data), Some(row.createdAt), Some(row.updatedAt))
  }

  /** Spreading an empty object changes nothing; spreading a full row
      yields that row. */
  lemma MesclarTarefaExtremos(t: Tarefa, row: Tarefa)
    ensures MesclarTarefa(t, PatchVazio) == t
    ensures MesclarTarefa(t, PatchCompleto(row)) == row
  {
  }

  /** A row of `blocos_tempo`. */
  datatype BlocoTempo = BlocoTempo(
    id: string, userId: string, hora: string, atividade: string,
    categoria: Categoria, data: string, createdAt: string, updatedAt: string)

  /** `Partial<BlocoTempo>`. */
  datatype BlocoPatch = BlocoPatch(
    id: Option<string>, userId: Option<string>, hora: Option<string>,
    atividade: Option<string>, categoria: Option<Categoria>, data: Option<string>,
    createdAt: Option<string>, updatedAt: Option<string>)

  /** `Omit<BlocoTempo, 'id' | 'user_id' | 'created_at' | 'updated_at'>`. */
  datatype NovoBloco = NovoBloco(hora: string, atividade: string, categoria: Categoria, data: string)

  datatype BlocoInsert = BlocoInsert(novo: NovoBloco, userId: string)

  /** `{ ...b, ...p }`. */
  function MesclarBloco(b: BlocoTempo, p: BlocoPatch): BlocoTempo {
    BlocoTempo(
      p.id.GetOr(b.id), p.userId.GetOr(b.userId), p.hora.GetOr(b.hora),
      p.atividade.GetOr(b.atividade), p.categoria.GetOr(b.categoria),
      p.data.GetOr(b.data), p.createdAt.GetOr(b.createdAt), p.updatedAt.GetOr(b.updatedAt))
  }

  function PatchBlocoCompleto(row: BlocoTempo): BlocoPatch {
    BlocoPatch(
      Some(row.id), Some(row.userId), Some(row.hora), Some(row.atividade),
      Some(row.categoria), Some(row.data), Some(row.createdAt), Some(row.updatedAt))
  }

  /** Spreading a full returned row over a time block yields that row. */
  lemma MesclarBlocoCompleto(b: BlocoTempo, row: BlocoTempo)
    ensures MesclarBloco(b, PatchBlocoCompleto(row)) == row
  {
  }

  /** A row of `medicacoes`. */
  datatype Medicacao = Medicacao(
    id: string, userId: string, nome: string, dosagem: Option<string>,
    frequencia: string, observacoes: Option<string>, dataInicio: string,
    createdAt: string, updatedAt: string)

  /** `MedicacaoComHorarios`: a medication with its dose times and the map
      from `${data}-${horario}` to whether that dose was taken. */
  datatype MedicacaoComHorarios = MedicacaoComHorarios(
    med: Medicacao, horarios: seq<string>, tomadas: map<string, bool>)

  /** A row of `medicacoes_horarios`, as selected (`select('horario')`). */
  datatype HorarioLinha = HorarioLinha(horario: string)

  /** A row of `medicacoes_tomadas`. */
  datatype MedicacaoTomada = MedicacaoTomada(
    id: string, medicacaoId: string, data: string, horario: string, tomada: bool,
    createdAt: string, updatedAt: string)

  /** A row of `fatores_humor` as embedded by `fatores_humor(fator)`. */
  datatype FatorHumor = FatorHumor(fator: string)

  /** A row of `registros_humor` with its embedded factor rows, which the
      reply may leave out (`fatores_humor` absent). */
  datatype RegistroHumorLinha = RegistroHumorLinha(
    id: string, userId: string, data: string, nivel: int, notas: Option<string>,
    createdAt: string, fatoresHumor: Option<seq<FatorHumor>>)

  /** A mood record once its embedded factor rows are flattened into
      `fatores` (`{ ...item, fatores }`). */
  datatype RegistroHumor = RegistroHumor(linha: RegistroHumorLinha, fatores: seq<string>)
}
