/** The rules of the proposals page (src/components/PropostasSection.tsx):
    validating the form before the store is called, appending a follow-up,
    and the filtered, newest-first list. */
module PropostasSection {
  import opened Optional
  import opened Types
  import opened Text
  import opened Sequences
  import opened Sorting
  import opened LocalStorage

  /** The form as typed: every field is text, `clienteId` the chosen client. */
  datatype FormProposta = FormProposta(clienteId: string, assunto: string, situacao: string,
                                       detalhesPendente: string, area: string)

  const MensagemObrigatorios := "Cliente e assunto são obrigatórios"
  const MensagemClienteNaoEncontrado := "Cliente não encontrado"

  function ComId(clienteId: string): Cliente -> bool {
    (c: Cliente) => c.id == clienteId
  }

  /** `handleSubmit`: rejects a missing client or a blank subject, then a
      client id that is not in the list; otherwise updates the proposal being
      edited or creates a new one dated `agora`. */
  function SubmeterProposta(form: FormProposta, clientes: seq<Cliente>, editando: Option<Proposta>, agora: int)
    : (r: Submissao<PropostaDraft, PropostaPatch>)
    ensures r.Rejeitada? <==>
      form.clienteId == "" || IsBlank(form.assunto) || forall c :: c in clientes ==> c.id != form.clienteId
    ensures form.clienteId == "" || IsBlank(form.assunto) ==> r == Rejeitada(MensagemObrigatorios)
    ensures form.clienteId != "" && !IsBlank(form.assunto) && r.Rejeitada? ==> r.mensagem == MensagemClienteNaoEncontrado
    ensures r.Atualizar? ==>
      && editando.Some? && r.id == editando.value.id
      && r.updates.cliente.Some? && r.updates.cliente.value in clientes && r.updates.cliente.value.id == form.clienteId
      && (exists i :: 0 <= i < |clientes| && clientes[i] == r.updates.cliente.value
                     && forall k :: 0 <= k < i ==> clientes[k].id != form.clienteId)
      && r.updates.assunto == Some(Trim(form.assunto))
      && r.updates.situacao == Some(form.situacao)
      && r.updates.detalhesPendente == Some(OuIndefinido(Trim(form.detalhesPendente)))
      && (r.updates.detalhesPendente.value.None? <==> IsBlank(form.detalhesPendente))
      && r.updates.area == Some(OuIndefinido(form.area))
      && r.updates.numeracao.None? && r.updates.seguimento.None?
      && r.updates.id.None? && r.updates.dataCreacao.None? && r.updates.criadaEm.None?
    ensures r.Adicionar? ==>
      && editando.None?
      && r.draft.cliente in clientes && r.draft.cliente.id == form.clienteId
      && (exists i :: 0 <= i < |clientes| && clientes[i] == r.draft.cliente
                     && forall k :: 0 <= k < i ==> clientes[k].id != form.clienteId)
      && r.draft.assunto == Trim(form.assunto)
      && r.draft.seguimento == []
      && r.draft.dataCreacao == agora
      && r.draft.situacao == form.situacao
      && r.draft.detalhesPendente == OuIndefinido(Trim(form.detalhesPendente))
      && (r.draft.detalhesPendente.None? <==> IsBlank(form.detalhesPendente))
      && r.draft.area == OuIndefinido(form.area)
  {
    TrimEmptyIffBlank(form.assunto);
    TrimEmptyIffBlank(form.detalhesPendente);
    if form.clienteId == "" || Trim(form.assunto) == "" then
      Rejeitada(MensagemObrigatorios)
    else match Find(clientes, ComId(form.clienteId))
      case None => Rejeitada(MensagemClienteNaoEncontrado)
      case Some(i) =>
        var cliente := clientes[i];
        var detalhes := OuIndefinido(Trim(form.detalhesPendente));
        var area := OuIndefinido(form.area);
        match editando
        case Some(proposta) =>
          Atualizar(proposta.id, PropostaSemAlteracoes.(
            cliente := Some(cliente), assunto := Some(Trim(form.assunto)), situacao := Some(form.situacao),
            detalhesPendente := Some(detalhes), area := Some(area)))
        case None =>
          Adicionar(PropostaDraft(agora, cliente, Trim(form.assunto), [], form.situacao, detalhes, area))
  }

  /** `handleAddSeguimento`: the update that appends the follow-up, stamped
      with `id`, to the proposal's list, or nothing when no proposal has the
      id. */
  function AdicionarSeguimento(propostas: seq<Proposta>, propostaId: string, seguimento: SeguimentoDraft, id: string)
    : (r: Option<PropostaPatch>)
    ensures r.None? <==> forall p :: p in propostas ==> p.id != propostaId
  {
    match Find(propostas, (p: Proposta) => p.id == propostaId)
    case None => None
    case Some(i) =>
      var novo := Seguimento(id, seguimento.data, seguimento.detalhes, seguimento.tipo, seguimento.proximoContacto);
      Some(PropostaSemAlteracoes.(seguimento := Some(propostas[i].seguimento + [novo])))
  }

  /** Applied to the store, the update of `AdicionarSeguimento` gives the
      proposal exactly one more follow-up, at the end of its list, changes
      nothing else in it, and leaves the proposals with other ids as they are. */
  lemma AdicionarSeguimentoAcrescenta(propostas: seq<Proposta>, propostaId: string, seguimento: SeguimentoDraft, id: string, i: nat)
    requires i < |propostas| && propostas[i].id == propostaId
    requires forall k :: 0 <= k < i ==> propostas[k].id != propostaId
    ensures AdicionarSeguimento(propostas, propostaId, seguimento, id).Some?
    ensures var novas := AtualizarPropostas(propostas, propostaId, AdicionarSeguimento(propostas, propostaId, seguimento, id).value);
      && |novas| == |propostas|
      && novas[i] == propostas[i].(seguimento := propostas[i].seguimento +
           [Seguimento(id, seguimento.data, seguimento.detalhes, seguimento.tipo, seguimento.proximoContacto)])
      && forall k :: 0 <= k < |propostas| && propostas[k].id != propostaId ==> novas[k] == propostas[k]
  {
    var f := Find(propostas, (p: Proposta) => p.id == propostaId);
    assert f == Some(i);
  }

  /** The three choices of the status filter. */
  datatype FiltroTipo = Ativas | ConcluidasSucesso | ConcluidasSemSucesso

  /** The area filter's value that switches it off. */
  const TodasAsAreas := "todas"

  /** The filters of `filtrarPropostas`, before sorting: the status filter,
      and for active proposals the area filter unless it is `todas`. */
  function PropostasDoFiltro(propostas: seq<Proposta>, tipo: FiltroTipo, filtroArea: string): seq<Proposta> {
    match tipo
    case Ativas =>
      var ativas := Filter(propostas, (p: Proposta) => p.situacao == Ativa);
      if filtroArea != TodasAsAreas then Filter(ativas, (p: Proposta) => p.area == Some(filtroArea)) else ativas
    case ConcluidasSucesso => Filter(propostas, (p: Proposta) => p.situacao == ConcluidaSucesso)
    case ConcluidasSemSucesso => Filter(propostas, (p: Proposta) => p.situacao == ConcluidaSemSucesso)
  }

  /** When a proposal is shown under the filters. */
  predicate Corresponde(p: Proposta, tipo: FiltroTipo, filtroArea: string) {
    match tipo
    case Ativas => p.situacao == Ativa && (filtroArea == TodasAsAreas || p.area == Some(filtroArea))
    case ConcluidasSucesso => p.situacao == ConcluidaSucesso
    case ConcluidasSemSucesso => p.situacao == ConcluidaSemSucesso
  }

  /** The filters keep exactly the proposals that match, in their stored order. */
  lemma PropostasDoFiltroSpec(propostas: seq<Proposta>, tipo: FiltroTipo, filtroArea: string)
    ensures forall p :: p in PropostasDoFiltro(propostas, tipo, filtroArea) <==> p in propostas && Corresponde(p, tipo, filtroArea)
    ensures Subsequence(PropostasDoFiltro(propostas, tipo, filtroArea), propostas)
  {
    var ativa := (p: Proposta) => p.situacao == Ativa;
    var naArea := (p: Proposta) => p.area == Some(filtroArea);
    match tipo
    case Ativas =>
      FilterIsSubsequence(propostas, ativa);
      if filtroArea != TodasAsAreas {
        var ativas := Filter(propostas, ativa);
        FilterIsSubsequence(ativas, naArea);
        SubsequenceTransitive(Filter(ativas, naArea), ativas, propostas);
      }
    case ConcluidasSucesso =>
      FilterIsSubsequence(propostas, (p: Proposta) => p.situacao == ConcluidaSucesso);
    case ConcluidasSemSucesso =>
      FilterIsSubsequence(propostas, (p: Proposta) => p.situacao == ConcluidaSemSucesso);
  }

  /** The comparator of the list: most recent creation date first. */
  function DataCreacaoDecrescente(p: Proposta): int {
    -p.dataCreacao
  }

  /** `filtrarPropostas`: the kept proposals, copied into a fresh array and
      sorted there newest first; the stored list is not reordered. */
  method FiltrarPropostas(propostas: seq<Proposta>, tipo: FiltroTipo, filtroArea: string) returns (r: seq<Proposta>)
    ensures r == SortBy(PropostasDoFiltro(propostas, tipo, filtroArea), DataCreacaoDecrescente)
    ensures multiset(r) == multiset(PropostasDoFiltro(propostas, tipo, filtroArea))
    ensures forall p :: p in r <==> p in propostas && Corresponde(p, tipo, filtroArea)
    ensures forall i, j :: 0 <= i < j < |r| ==> r[i].dataCreacao >= r[j].dataCreacao
  {
    var mantidas := PropostasDoFiltro(propostas, tipo, filtroArea);
    var a := new Proposta[|mantidas|](i requires 0 <= i < |mantidas| => mantidas[i]);
    assert a[..] == mantidas;
    SortInPlace(a, DataCreacaoDecrescente);
    r := a[..];
    SortByPermutes(mantidas, DataCreacaoDecrescente);
    SortBySorted(mantidas, DataCreacaoDecrescente);
    PropostasDoFiltroSpec(propostas, tipo, filtroArea);
    forall p ensures p in r <==> p in mantidas {
      assert p in r <==> p in multiset(r);
    }
  }

  /** `getSituacaoLabel`: the label of each status of the typed vocabulary;
      any other value is shown as it is. */
  function RotuloSituacao(situacao: string): (r: string)
    ensures situacao == "ativa" ==> r == "Ativa"
    ensures situacao == "concluida-sucesso" ==> r == "Concluída com Sucesso"
    ensures situacao == "concluida-sem-sucesso" ==> r == "Concluída sem Sucesso"
    ensures r == situacao <==> !SituacaoTipada(situacao)
  {
    if situacao == Ativa then "Ativa"
    else if situacao == ConcluidaSucesso then "Concluída com Sucesso"
    else if situacao == ConcluidaSemSucesso then "Concluída sem Sucesso"
    else situacao
  }
}
