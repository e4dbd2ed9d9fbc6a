/** The tasks page (src/components/TarefasSection.tsx): validating and trimming
    the form, toggling completion, the open/completed split, and the edit
    form's initial values. */
module TarefasSection {
  import opened Optional
  import opened Types
  import opened Text
  import opened Sequences
  import opened LocalStorage

  datatype FormTarefa = FormTarefa(cliente: string, assunto: string, proposta: string, area: string)

  const MensagemObrigatorios := "Cliente e assunto são obrigatórios"

  /** `handleSubmit`: rejects a blank client or subject; otherwise sends the
      trimmed text (the proposal label as `''` when blank) and the area, or
      `undefined` for an empty area, as an update of the task being edited or
      as a new task. */
  function SubmeterTarefa(form: FormTarefa, editando: Option<Tarefa>): (r: Submissao<TarefaDraft, TarefaPatch>)
    ensures r.Rejeitada? <==> IsBlank(form.cliente) || IsBlank(form.assunto)
    ensures r.Rejeitada? ==> r.mensagem == MensagemObrigatorios
    ensures r.Atualizar? ==>
      && editando.Some? && r.id == editando.value.id
      && r.updates.cliente == Some(Trim(form.cliente))
      && r.updates.assunto == Some(Trim(form.assunto))
      && r.updates.proposta == Some(Some(Trim(form.proposta)))
      && r.updates.area == Some(OuIndefinido(form.area))
      && r.updates.id.None? && r.updates.concluida.None? && r.updates.criadaEm.None?
    ensures r.Adicionar? ==>
      && editando.None?
      && r.draft.cliente == Trim(form.cliente) && r.draft.assunto == Trim(form.assunto)
      && r.draft.proposta == Some(Trim(form.proposta))
      && r.draft.area == OuIndefinido(form.area)
  {
    TrimEmptyIffBlank(form.cliente);
    TrimEmptyIffBlank(form.assunto);
    if Trim(form.cliente) == "" || Trim(form.assunto) == "" then
      Rejeitada(MensagemObrigatorios)
    else match editando
      case Some(tarefa) =>
        Atualizar(tarefa.id, TarefaSemAlteracoes.(
          cliente := Some(Trim(form.cliente)), assunto := Some(Trim(form.assunto)),
          proposta := Some(Some(Trim(form.proposta))), area := Some(OuIndefinido(form.area))))
      case None =>
        Adicionar(TarefaDraft(Trim(form.cliente), Trim(form.assunto), Some(Trim(form.proposta)), OuIndefinido(form.area)))
  }

  /** `handleToggleComplete`: an update that carries only `concluida`. */
  function AlternarConcluida(concluida: bool): TarefaPatch {
    TarefaSemAlteracoes.(concluida := Some(concluida))
  }

  /** Applied to the store, a toggle changes the completion flag of the tasks
      with the id and nothing else. */
  lemma AlternarConcluidaSpec(tarefas: seq<Tarefa>, id: string, concluida: bool)
    ensures var novas := AtualizarTarefas(tarefas, id, AlternarConcluida(concluida));
      && |novas| == |tarefas|
      && forall i :: 0 <= i < |tarefas| ==>
           novas[i] == if tarefas[i].id == id then tarefas[i].(concluida := concluida) else tarefas[i]
  {
  }

  function TarefasPendentes(tarefas: seq<Tarefa>): seq<Tarefa> {
    Filter(tarefas, (t: Tarefa) => !t.concluida)
  }

  function TarefasConcluidas(tarefas: seq<Tarefa>): seq<Tarefa> {
    Filter(tarefas, (t: Tarefa) => t.concluida)
  }

  /** The open and the completed tasks split the task list: each task is in
      exactly one of them, and together they hold every task once. */
  lemma PendentesConcluidasParticao(tarefas: seq<Tarefa>)
    ensures forall t :: t in TarefasPendentes(tarefas) <==> t in tarefas && !t.concluida
    ensures forall t :: t in TarefasConcluidas(tarefas) <==> t in tarefas && t.concluida
    ensures |TarefasPendentes(tarefas)| + |TarefasConcluidas(tarefas)| == |tarefas|
    ensures multiset(TarefasPendentes(tarefas)) + multiset(TarefasConcluidas(tarefas)) == multiset(tarefas)
  {
    FilterPartition(tarefas, (t: Tarefa) => t.concluida, (t: Tarefa) => !t.concluida);
  }

  /** `handleEdit`: the form starts from the task, `''` for an absent proposal
      label or area. */
  function PreencherTarefa(t: Tarefa): (f: FormTarefa)
    ensures f.cliente == t.cliente && f.assunto == t.assunto
    ensures f.proposta == (if t.proposta.Some? then t.proposta.value else "")
    ensures f.area == (if t.area.Some? then t.area.value else "")
  {
    FormTarefa(t.cliente, t.assunto, OuVazio(t.proposta), OuVazio(t.area))
  }

  /** Opening a task for editing and saving it unchanged gives the task back,
      when its text is already trimmed and non-empty, it has a proposal label
      and its area is not the empty string. */
  lemma EditarSemAlterarPreserva(t: Tarefa)
    requires t.cliente != "" && Trim(t.cliente) == t.cliente
    requires t.assunto != "" && Trim(t.assunto) == t.assunto
    requires t.proposta.Some? && Trim(t.proposta.value) == t.proposta.value
    requires t.area != Some("")
    ensures var r := SubmeterTarefa(PreencherTarefa(t), Some(t));
      r.Atualizar? && r.id == t.id && MergeTarefa(t, r.updates) == t
  {
    TrimEmptyIffBlank(t.cliente);
    TrimEmptyIffBlank(t.assunto);
  }

  /** A task created through the form meets the conditions above: opening it
      for editing and saving it unchanged gives it back. */
  lemma CriadaPeloFormularioPreserva(form: FormTarefa, id: string, criadaEm: int)
    requires !IsBlank(form.cliente) && !IsBlank(form.assunto)
    ensures SubmeterTarefa(form, None).Adicionar?
    ensures var t := NovaTarefa(SubmeterTarefa(form, None).draft, id, criadaEm);
      var r := SubmeterTarefa(PreencherTarefa(t), Some(t));
      r.Atualizar? && r.id == id && MergeTarefa(t, r.updates) == t
  {
    var t := NovaTarefa(SubmeterTarefa(form, None).draft, id, criadaEm);
    TrimEmptyIffBlank(form.cliente);
    TrimEmptyIffBlank(form.assunto);
    TrimIdempotent(form.cliente);
    TrimIdempotent(form.assunto);
    TrimIdempotent(form.proposta);
    EditarSemAlterarPreserva(t);
  }

  /** Without a proposal label the form starts with `''`, and saving it
      unchanged stores the label `''`: edit-then-save does not give such a
      task back. */
  lemma EditarSemRotuloGravaVazio(t: Tarefa)
    requires !IsBlank(t.cliente) && !IsBlank(t.assunto)
    requires t.proposta.None?
    ensures var r := SubmeterTarefa(PreencherTarefa(t), Some(t));
      r.Atualizar? && MergeTarefa(t, r.updates).proposta == Some("") && MergeTarefa(t, r.updates) != t
  {
    TrimEmptyIffBlank(t.cliente);
    TrimEmptyIffBlank(t.assunto);
    assert Trim("") == "";
  }
}
