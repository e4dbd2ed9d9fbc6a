/** The areas page (src/components/AreasSection.tsx): validating and trimming
    the form, the list ordered by creation, and the edit form's initial
    values. What the store does with an area is not part of this model. */
module AreasSection {
  import opened Optional
  import opened Types
  import opened Text
  import opened Sorting

  datatype FormArea = FormArea(nome: string, descricao: string)

  const MensagemNomeObrigatorio := "O nome da área é obrigatório"

  /** `handleSubmit`: rejects a blank name; otherwise sends the trimmed name
      and the trimmed description (`''` when blank), as an update of the area
      being edited or as a new area. */
  function SubmeterArea(form: FormArea, editando: Option<Area>): (r: Submissao<AreaDraft, AreaPatch>)
    ensures r.Rejeitada? <==> IsBlank(form.nome)
    ensures r.Rejeitada? ==> r.mensagem == MensagemNomeObrigatorio
    ensures r.Atualizar? ==>
      && editando.Some? && r.id == editando.value.id
      && r.updates.nome == Some(Trim(form.nome)) && r.updates.descricao == Some(Some(Trim(form.descricao)))
    ensures r.Adicionar? ==>
      editando.None? && r.draft.nome == Trim(form.nome) && r.draft.descricao == Some(Trim(form.descricao))
  {
    TrimEmptyIffBlank(form.nome);
    if Trim(form.nome) == "" then
      Rejeitada(MensagemNomeObrigatorio)
    else match editando
      case Some(area) => Atualizar(area.id, AreaPatch(Some(Trim(form.nome)), Some(Some(Trim(form.descricao)))))
      case None => Adicionar(AreaDraft(Trim(form.nome), Some(Trim(form.descricao))))
  }

  /** The comparator of the list: oldest area first. */
  function CriadaEm(a: Area): int {
    a.criadaEm
  }

  /** `areasOrdenadas`: a sorted copy; the stored list keeps its order. */
  function AreasOrdenadas(areas: seq<Area>): seq<Area> {
    SortBy(areas, CriadaEm)
  }

  /** The list shown holds every area once, oldest first. */
  lemma AreasOrdenadasSpec(areas: seq<Area>)
    ensures multiset(AreasOrdenadas(areas)) == multiset(areas)
    ensures forall i, j :: 0 <= i < j < |areas| ==> AreasOrdenadas(areas)[i].criadaEm <= AreasOrdenadas(areas)[j].criadaEm
  {
    SortByPermutes(areas, CriadaEm);
    SortBySorted(areas, CriadaEm);
  }

  /** `handleEdit`: the form starts from the area, `''` for an absent
      description. */
  function PreencherArea(a: Area): (f: FormArea)
    ensures f.nome == a.nome
    ensures f.descricao == (if a.descricao.Some? then a.descricao.value else "")
  {
    FormArea(a.nome, OuVazio(a.descricao))
  }

  /** Opening an area for editing and saving it unchanged sends its own name
      and description back, when they are already trimmed and the name is not
      empty. */
  lemma EditarSemAlterarPreserva(a: Area)
    requires a.nome != "" && Trim(a.nome) == a.nome
    requires a.descricao.Some? && Trim(a.descricao.value) == a.descricao.value
    ensures SubmeterArea(PreencherArea(a), Some(a)) == Atualizar(a.id, AreaPatch(Some(a.nome), Some(a.descricao)))
  {
    TrimEmptyIffBlank(a.nome);
  }

  /** Without a description the form starts with `''`, and saving it
      unchanged sends the description `''` rather than leaving it absent. */
  lemma EditarSemDescricaoEnviaVazio(a: Area)
    requires !IsBlank(a.nome)
    requires a.descricao.None?
    ensures var r := SubmeterArea(PreencherArea(a), Some(a));
      r.Atualizar? && r.updates.descricao == Some(Some(""))
  {
    TrimEmptyIffBlank(a.nome);
    assert Trim("") == "";
  }
}
