/** The records of the application (src/types/index.ts). Timestamps and dates
    are milliseconds since the epoch; identifiers are strings. */
module Types {
  import opened Optional

  datatype Area = Area(id: string, nome: string, descricao: Option<string>, criadaEm: int)

  datatype Cliente = Cliente(
    id: string,
    empresa: string,
    contacto: string,
    telemovel: string,
    email: string,
    localidade: string,
    morada: string,
    area: Option<string>,
    criadoEm: int)

  datatype Tarefa = Tarefa(
    id: string,
    cliente: string,
    assunto: string,
    proposta: Option<string>,
    area: Option<string>,
    concluida: bool,
    criadaEm: int)

  /** A follow-up of a proposal. `tipo` is one of `proposta`, `reuniao`,
      `chamada`, `email`, `outro` in the typed vocabulary; it is kept as a
      string because the label function accepts any value. */
  datatype Seguimento = Seguimento(
    id: string,
    data: int,
    detalhes: string,
    tipo: string,
    proximoContacto: Option<string>)

  /** `situacao` is `ativa`, `concluida-sucesso` or `concluida-sem-sucesso` in
      the typed vocabulary; stored data may also carry the older `pendente`,
      `sem-interesse` and `final`, so it is kept as a string. */
  datatype Proposta = Proposta(
    id: string,
    dataCreacao: int,
    cliente: Cliente,
    assunto: string,
    seguimento: seq<Seguimento>,
    numeracao: int,
    situacao: string,
    detalhesPendente: Option<string>,
    area: Option<string>,
    criadaEm: int)

  const Ativa := "ativa"
  const ConcluidaSucesso := "concluida-sucesso"
  const ConcluidaSemSucesso := "concluida-sem-sucesso"

  /** The status vocabulary of the `Proposta` type. */
  predicate SituacaoTipada(s: string) {
    s == Ativa || s == ConcluidaSucesso || s == ConcluidaSemSucesso
  }

  // What the `adicionar*` operations receive: a record without the fields the
  // store stamps itself (`Omit<T, ...>`).

  datatype ClienteDraft = ClienteDraft(
    empresa: string,
    contacto: string,
    telemovel: string,
    email: string,
    localidade: string,
    morada: string,
    area: Option<string>)

  datatype TarefaDraft = TarefaDraft(
    cliente: string,
    assunto: string,
    proposta: Option<string>,
    area: Option<string>)

  datatype PropostaDraft = PropostaDraft(
    dataCreacao: int,
    cliente: Cliente,
    assunto: string,
    seguimento: seq<Seguimento>,
    situacao: string,
    detalhesPendente: Option<string>,
    area: Option<string>)

  datatype SeguimentoDraft = SeguimentoDraft(
    data: int,
    detalhes: string,
    tipo: string,
    proximoContacto: Option<string>)

  datatype AreaDraft = AreaDraft(nome: string, descricao: Option<string>)

  // What the `atualizar*` operations receive (`Partial<T>`): `None` is a
  // property the update object does not have; `Some(v)` one it has. For an
  // optional property the value is itself an option, because an update object
  // may carry the property with the value `undefined`, and spreading it then
  // removes the property from the record.

  datatype ClientePatch = ClientePatch(
    id: Option<string>,
    empresa: Option<string>,
    contacto: Option<string>,
    telemovel: Option<string>,
    email: Option<string>,
    localidade: Option<string>,
    morada: Option<string>,
    area: Option<Option<string>>,
    criadoEm: Option<int>)

  datatype TarefaPatch = TarefaPatch(
    id: Option<string>,
    cliente: Option<string>,
    assunto: Option<string>,
    proposta: Option<Option<string>>,
    area: Option<Option<string>>,
    concluida: Option<bool>,
    criadaEm: Option<int>)

  datatype PropostaPatch = PropostaPatch(
    id: Option<string>,
    dataCreacao: Option<int>,
    cliente: Option<Cliente>,
    assunto: Option<string>,
    seguimento: Option<seq<Seguimento>>,
    numeracao: Option<int>,
    situacao: Option<string>,
    detalhesPendente: Option<Option<string>>,
    area: Option<Option<string>>,
    criadaEm: Option<int>)

  datatype AreaPatch = AreaPatch(nome: Option<string>, descricao: Option<Option<string>>)

  const ClienteSemAlteracoes := ClientePatch(None, None, None, None, None, None, None, None, None)
  const TarefaSemAlteracoes := TarefaPatch(None, None, None, None, None, None, None)
  const PropostaSemAlteracoes := PropostaPatch(None, None, None, None, None, None, None, None, None, None)

  /** What a form's submit handler does: nothing but an error message, an
      update of the record being edited, or the creation of a new one. */
  datatype Submissao<D, P> =
    | Rejeitada(mensagem: string)
    | Atualizar(id: string, updates: P)
    | Adicionar(draft: D)

  /** An optional form field: `value || undefined`, the empty string standing
      for an absent value. */
  function OuIndefinido(s: string): (r: Option<string>)
    ensures r.None? <==> s == ""
    ensures r.Some? ==> r.value == s
  {
    if s == "" then None else Some(s)
  }

  /** The edit-form value of an optional field: `value || ''`. */
  function OuVazio(o: Option<string>): (r: string)
    ensures o.Some? ==> r == o.value
    ensures o.None? ==> r == ""
  {
    o.GetOr("")
  }
}
