/** The clients page (src/components/ClientesSection.tsx): validating and
    trimming the form, the list ordered by creation, and the edit form's
    initial values. */
module ClientesSection {
  import opened Optional
  import opened Types
  import opened Text
  import opened Sorting
  import opened LocalStorage

  datatype FormCliente = FormCliente(empresa: string, contacto: string, telemovel: string, email: string,
                                     localidade: string, morada: string, area: string)

  const MensagemEmpresaObrigatoria := "O nome da empresa é obrigatório"

  /** `handleSubmit`: rejects a blank company name; otherwise sends the six
      text fields trimmed and the area, or `undefined` for an empty area, as
      an update of the client being edited or as a new client. */
  function SubmeterCliente(form: FormCliente, editando: Option<Cliente>): (r: Submissao<ClienteDraft, ClientePatch>)
    ensures r.Rejeitada? <==> IsBlank(form.empresa)
    ensures r.Rejeitada? ==> r.mensagem == MensagemEmpresaObrigatoria
    ensures r.Atualizar? ==>
      && editando.Some? && r.id == editando.value.id
      && r.updates.empresa == Some(Trim(form.empresa)) && r.updates.contacto == Some(Trim(form.contacto))
      && r.updates.telemovel == Some(Trim(form.telemovel)) && r.updates.email == Some(Trim(form.email))
      && r.updates.localidade == Some(Trim(form.localidade)) && r.updates.morada == Some(Trim(form.morada))
      && r.updates.area == Some(OuIndefinido(form.area))
      && r.updates.id.None? && r.updates.criadoEm.None?
    ensures r.Adicionar? ==>
      && editando.None?
      && r.draft.empresa == Trim(form.empresa) && r.draft.contacto == Trim(form.contacto)
      && r.draft.telemovel == Trim(form.telemovel) && r.draft.email == Trim(form.email)
      && r.draft.localidade == Trim(form.localidade) && r.draft.morada == Trim(form.morada)
      && r.draft.area == OuIndefinido(form.area)
  {
    TrimEmptyIffBlank(form.empresa);
    if Trim(form.empresa) == "" then
      Rejeitada(MensagemEmpresaObrigatoria)
    else
      var draft := ClienteDraft(Trim(form.empresa), Trim(form.contacto), Trim(form.telemovel), Trim(form.email),
                                Trim(form.localidade), Trim(form.morada), OuIndefinido(form.area));
      match editando
      case Some(cliente) =>
        Atualizar(cliente.id, ClientePatch(None, Some(draft.empresa), Some(draft.contacto), Some(draft.telemovel),
                                           Some(draft.email), Some(draft.localidade), Some(draft.morada),
                                           Some(draft.area), None))
      case None => Adicionar(draft)
  }

  /** The comparator of the list: oldest client first. */
  function CriadoEm(c: Cliente): int {
    c.criadoEm
  }

  /** `clientesOrdenados`: a sorted copy; the stored list keeps its order. */
  function ClientesOrdenados(clientes: seq<Cliente>): seq<Cliente> {
    SortBy(clientes, CriadoEm)
  }

  /** The list shown holds every client once, oldest first. */
  lemma ClientesOrdenadosSpec(clientes: seq<Cliente>)
    ensures multiset(ClientesOrdenados(clientes)) == multiset(clientes)
    ensures forall i, j :: 0 <= i < j < |clientes| ==>
      ClientesOrdenados(clientes)[i].criadoEm <= ClientesOrdenados(clientes)[j].criadoEm
  {
    SortByPermutes(clientes, CriadoEm);
    SortBySorted(clientes, CriadoEm);
  }

  /** `handleEdit`: the form starts from the client, `''` for an absent area. */
  function PreencherCliente(c: Cliente): (f: FormCliente)
    ensures f.empresa == c.empresa && f.contacto == c.contacto && f.telemovel == c.telemovel
    ensures f.email == c.email && f.localidade == c.localidade && f.morada == c.morada
    ensures f.area == (if c.area.Some? then c.area.value else "")
  {
    FormCliente(c.empresa, c.contacto, c.telemovel, c.email, c.localidade, c.morada, OuVazio(c.area))
  }

  predicate Aparado(s: string) {
    Trim(s) == s
  }

  /** Opening a client for editing and saving it unchanged gives the client
      back, when its text fields are already trimmed, its company name is not
      empty and its area is not the empty string. */
  lemma EditarSemAlterarPreserva(c: Cliente)
    requires c.empresa != "" && Aparado(c.empresa)
    requires Aparado(c.contacto) && Aparado(c.telemovel) && Aparado(c.email)
    requires Aparado(c.localidade) && Aparado(c.morada)
    requires c.area != Some("")
    ensures var r := SubmeterCliente(PreencherCliente(c), Some(c));
      r.Atualizar? && r.id == c.id && MergeCliente(c, r.updates) == c
  {
    TrimEmptyIffBlank(c.empresa);
  }
}
