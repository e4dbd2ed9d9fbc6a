/** The record store of the application (src/hooks/useLocalStorage.ts): three
    collections, each written back whole on every change, and the rules that
    derive the fields the store stamps itself. The browser's `localStorage`
    is the three collection fields; `JSON.parse` and `JSON.stringify` are
    replaced by the parsed document `Documento`. */
module LocalStorage {
  import opened Optional
  import opened Types
  import opened Text
  import opened Sequences
  import opened Sorting

  // ---------------------------------------------------------------------------
  // Adding records

  function NovoCliente(draft: ClienteDraft, id: string, criadoEm: int): Cliente {
    Cliente(id, draft.empresa, draft.contacto, draft.telemovel, draft.email,
            draft.localidade, draft.morada, draft.area, criadoEm)
  }

  function NovaTarefa(draft: TarefaDraft, id: string, criadaEm: int): Tarefa {
    Tarefa(id, draft.cliente, draft.assunto, draft.proposta, draft.area, false, criadaEm)
  }

  /** The proposals of the client whose id is `clienteId`. */
  function DoCliente(clienteId: string): Proposta -> bool {
    (p: Proposta) => p.cliente.id == clienteId
  }

  /** The comparator `(a, b) => b.numeracao - a.numeracao`: highest number first. */
  function NumeracaoDecrescente(p: Proposta): int {
    -p.numeracao
  }

  /** The client's proposal with the highest number: the first one after
      sorting the client's proposals by number, highest first. */
  function UltimaPropostaDoCliente(propostas: seq<Proposta>, clienteId: string): (r: Option<Proposta>)
    ensures r.None? <==> forall p :: p in propostas ==> p.cliente.id != clienteId
    ensures r.Some? ==> r.value in propostas && r.value.cliente.id == clienteId
    ensures r.Some? ==> forall p :: p in propostas && p.cliente.id == clienteId ==> p.numeracao <= r.value.numeracao
  {
    var doCliente := Filter(propostas, DoCliente(clienteId));
    var ordenadas := SortBy(doCliente, NumeracaoDecrescente);
    if ordenadas == [] then
      None
    else
      SortByHead(doCliente, NumeracaoDecrescente);
      Some(ordenadas[0])
  }

  /** The number a new proposal of the client gets: one more than the highest
      number among the client's proposals, or 1 when it has none. */
  function ProximaNumeracao(propostas: seq<Proposta>, clienteId: string): (n: int)
    ensures forall p :: p in propostas && p.cliente.id == clienteId ==> p.numeracao < n
    ensures (forall p :: p in propostas ==> p.cliente.id != clienteId) ==> n == 1
    ensures (exists p :: p in propostas && p.cliente.id == clienteId) ==>
              exists p :: p in propostas && p.cliente.id == clienteId && p.numeracao == n - 1
  {
    match UltimaPropostaDoCliente(propostas, clienteId)
    case Some(ultima) => ultima.numeracao + 1
    case None => 1
  }

  function NovaProposta(propostas: seq<Proposta>, draft: PropostaDraft, id: string, criadaEm: int): Proposta {
    Proposta(id, draft.dataCreacao, draft.cliente, draft.assunto, draft.seguimento,
             ProximaNumeracao(propostas, draft.cliente.id), draft.situacao,
             draft.detalhesPendente, draft.area, criadaEm)
  }

  /** No two proposals of one client share a number. */
  ghost predicate NumeracaoUnica(propostas: seq<Proposta>) {
    forall i, j :: 0 <= i < j < |propostas| && propostas[i].cliente.id == propostas[j].cliente.id ==>
      propostas[i].numeracao != propostas[j].numeracao
  }

  /** Adding a proposal keeps the numbers of each client distinct, because the
      new number exceeds every number the client already has. */
  lemma AdicionarPropostaPreservaUnicidade(propostas: seq<Proposta>, draft: PropostaDraft, id: string, criadaEm: int)
    requires NumeracaoUnica(propostas)
    ensures NumeracaoUnica(propostas + [NovaProposta(propostas, draft, id, criadaEm)])
  {
    var nova := NovaProposta(propostas, draft, id, criadaEm);
    var ps := propostas + [nova];
    forall i, j | 0 <= i < j < |ps| && ps[i].cliente.id == ps[j].cliente.id
      ensures ps[i].numeracao != ps[j].numeracao
    {
      if j == |propostas| {
        assert ps[i] in propostas;
      }
    }
  }

  /** The numbers of the client's proposals, in the order they were added,
      are 1, 2, ..., k. */
  ghost predicate NumeracaoSequencial(propostas: seq<Proposta>, clienteId: string) {
    var doCliente := Filter(propostas, DoCliente(clienteId));
    forall m :: 0 <= m < |doCliente| ==> doCliente[m].numeracao == m + 1
  }

  /** When a client's numbers run 1, 2, ..., k, the next proposal of that client
      is numbered k + 1, so they keep running without a gap; the numbering of
      every other client is untouched. */
  lemma AdicionarPropostaSequencial(propostas: seq<Proposta>, draft: PropostaDraft, id: string, criadaEm: int, clienteId: string)
    requires NumeracaoSequencial(propostas, clienteId)
    ensures NumeracaoSequencial(propostas + [NovaProposta(propostas, draft, id, criadaEm)], clienteId)
  {
    var nova := NovaProposta(propostas, draft, id, criadaEm);
    var doCliente := Filter(propostas, DoCliente(clienteId));
    FilterAppend(propostas, [nova], DoCliente(clienteId));
    if nova.cliente.id == clienteId {
      assert Filter(propostas + [nova], DoCliente(clienteId)) == doCliente + [nova];
      assert nova.numeracao == |doCliente| + 1 by {
        ProximaNumeracaoSequencial(propostas, clienteId);
      }
    } else {
      assert Filter(propostas + [nova], DoCliente(clienteId)) == doCliente;
    }
  }

  /** For a client whose numbers run 1, 2, ..., k, the next number is k + 1. */
  lemma ProximaNumeracaoSequencial(propostas: seq<Proposta>, clienteId: string)
    requires NumeracaoSequencial(propostas, clienteId)
    ensures ProximaNumeracao(propostas, clienteId) == |Filter(propostas, DoCliente(clienteId))| + 1
  {
    var doCliente := Filter(propostas, DoCliente(clienteId));
    var k := |doCliente|;
    var n := ProximaNumeracao(propostas, clienteId);
    if k == 0 {
      assert forall p :: p in propostas ==> p.cliente.id != clienteId;
    } else {
      assert doCliente[k - 1] in propostas;
      assert k < n;
      var ultima :| ultima in propostas && ultima.cliente.id == clienteId && ultima.numeracao == n - 1;
      assert ultima in doCliente;
      var m :| 0 <= m < k && doCliente[m] == ultima;
    }
  }

  // ---------------------------------------------------------------------------
  // Updating records: `{ ...record, ...updates }` on every record with the id

  function MergeCliente(c: Cliente, u: ClientePatch): Cliente {
    Cliente(u.id.GetOr(c.id), u.empresa.GetOr(c.empresa), u.contacto.GetOr(c.contacto),
            u.telemovel.GetOr(c.telemovel), u.email.GetOr(c.email),
            u.localidade.GetOr(c.localidade), u.morada.GetOr(c.morada),
            u.area.GetOr(c.area), u.criadoEm.GetOr(c.criadoEm))
  }

  function MergeTarefa(t: Tarefa, u: TarefaPatch): Tarefa {
    Tarefa(u.id.GetOr(t.id), u.cliente.GetOr(t.cliente), u.assunto.GetOr(t.assunto),
           u.proposta.GetOr(t.proposta), u.area.GetOr(t.area),
           u.concluida.GetOr(t.concluida), u.criadaEm.GetOr(t.criadaEm))
  }

  function MergeProposta(p: Proposta, u: PropostaPatch): Proposta {
    Proposta(u.id.GetOr(p.id), u.dataCreacao.GetOr(p.dataCreacao), u.cliente.GetOr(p.cliente),
             u.assunto.GetOr(p.assunto), u.seguimento.GetOr(p.seguimento),
             u.numeracao.GetOr(p.numeracao), u.situacao.GetOr(p.situacao),
             u.detalhesPendente.GetOr(p.detalhesPendente), u.area.GetOr(p.area),
             u.criadaEm.GetOr(p.criadaEm))
  }

  /** An empty update object leaves a record as it is, and merging the same
      update twice is merging it once. */
  lemma MergeNeutralAndIdempotent(c: Cliente, t: Tarefa, p: Proposta, uc: ClientePatch, ut: TarefaPatch, up: PropostaPatch)
    ensures MergeCliente(c, ClienteSemAlteracoes) == c
    ensures MergeTarefa(t, TarefaSemAlteracoes) == t
    ensures MergeProposta(p, PropostaSemAlteracoes) == p
    ensures MergeCliente(MergeCliente(c, uc), uc) == MergeCliente(c, uc)
    ensures MergeTarefa(MergeTarefa(t, ut), ut) == MergeTarefa(t, ut)
    ensures MergeProposta(MergeProposta(p, up), up) == MergeProposta(p, up)
  {
  }

  /** `records.map(r => r.id === id ? merge(r) : r)`, for any record type. */
  function AtualizarOnde<T>(s: seq<T>, corresponde: T -> bool, merge: T -> T): (r: seq<T>)
    ensures |r| == |s|
    ensures forall i :: 0 <= i < |s| && corresponde(s[i]) ==> r[i] == merge(s[i])
    ensures forall i :: 0 <= i < |s| && !corresponde(s[i]) ==> r[i] == s[i]
    ensures (forall i :: 0 <= i < |s| ==> !corresponde(s[i])) ==> r == s
  {
    Map(s, x => if corresponde(x) then merge(x) else x)
  }

  function AtualizarClientes(clientes: seq<Cliente>, id: string, updates: ClientePatch): seq<Cliente> {
    AtualizarOnde(clientes, (c: Cliente) => c.id == id, (c: Cliente) => MergeCliente(c, updates))
  }

  function AtualizarTarefas(tarefas: seq<Tarefa>, id: string, updates: TarefaPatch): seq<Tarefa> {
    AtualizarOnde(tarefas, (t: Tarefa) => t.id == id, (t: Tarefa) => MergeTarefa(t, updates))
  }

  function AtualizarPropostas(propostas: seq<Proposta>, id: string, updates: PropostaPatch): seq<Proposta> {
    AtualizarOnde(propostas, (p: Proposta) => p.id == id, (p: Proposta) => MergeProposta(p, updates))
  }

  /** Updating a task: same number of tasks, each task with the id merged with
      the update, every other task as it was, nothing changed for an unknown
      id; and applying the same update again changes nothing more. */
  lemma AtualizarTarefasSpec(tarefas: seq<Tarefa>, id: string, u: TarefaPatch)
    ensures |AtualizarTarefas(tarefas, id, u)| == |tarefas|
    ensures forall i :: 0 <= i < |tarefas| ==>
      AtualizarTarefas(tarefas, id, u)[i] == if tarefas[i].id == id then MergeTarefa(tarefas[i], u) else tarefas[i]
    ensures (forall t :: t in tarefas ==> t.id != id) ==> AtualizarTarefas(tarefas, id, u) == tarefas
    ensures u.id.None? ==> AtualizarTarefas(AtualizarTarefas(tarefas, id, u), id, u) == AtualizarTarefas(tarefas, id, u)
  {
  }

  /** As `AtualizarTarefasSpec`, for proposals. */
  lemma AtualizarPropostasSpec(propostas: seq<Proposta>, id: string, u: PropostaPatch)
    ensures |AtualizarPropostas(propostas, id, u)| == |propostas|
    ensures forall i :: 0 <= i < |propostas| ==>
      AtualizarPropostas(propostas, id, u)[i] == if propostas[i].id == id then MergeProposta(propostas[i], u) else propostas[i]
    ensures (forall p :: p in propostas ==> p.id != id) ==> AtualizarPropostas(propostas, id, u) == propostas
    ensures u.id.None? ==> AtualizarPropostas(AtualizarPropostas(propostas, id, u), id, u) == AtualizarPropostas(propostas, id, u)
  {
  }

  /** As `AtualizarTarefasSpec`, for clients. */
  lemma AtualizarClientesSpec(clientes: seq<Cliente>, id: string, u: ClientePatch)
    ensures |AtualizarClientes(clientes, id, u)| == |clientes|
    ensures forall i :: 0 <= i < |clientes| ==>
      AtualizarClientes(clientes, id, u)[i] == if clientes[i].id == id then MergeCliente(clientes[i], u) else clientes[i]
    ensures (forall c :: c in clientes ==> c.id != id) ==> AtualizarClientes(clientes, id, u) == clientes
    ensures u.id.None? ==> AtualizarClientes(AtualizarClientes(clientes, id, u), id, u) == AtualizarClientes(clientes, id, u)
  {
  }

  // ---------------------------------------------------------------------------
  // Find-or-create a client by company name

  /** Same company name, ignoring (ASCII) case. */
  function MesmaEmpresa(nomeEmpresa: string): Cliente -> bool {
    (c: Cliente) => Lower(c.empresa) == Lower(nomeEmpresa)
  }

  function ClienteMinimo(nomeEmpresa: string, nomeContacto: string): ClienteDraft {
    ClienteDraft(nomeEmpresa, nomeContacto, "", "", "", "", None)
  }

  /** `buscarOuCriarCliente`: the client returned and the client list after the
      call. */
  function BuscarOuCriar(clientes: seq<Cliente>, nomeEmpresa: string, nomeContacto: string, id: string, criadoEm: int): (r: (Cliente, seq<Cliente>))
    ensures Lower(r.0.empresa) == Lower(nomeEmpresa)
    ensures (exists i :: 0 <= i < |clientes| && Lower(clientes[i].empresa) == Lower(nomeEmpresa)) ==>
      r.1 == clientes && r.0 in clientes &&
      exists i :: 0 <= i < |clientes| && clientes[i] == r.0 &&
        forall k :: 0 <= k < i ==> Lower(clientes[k].empresa) != Lower(nomeEmpresa)
    ensures (forall i :: 0 <= i < |clientes| ==> Lower(clientes[i].empresa) != Lower(nomeEmpresa)) ==>
      r.1 == clientes + [r.0] &&
      r.0 == Cliente(id, nomeEmpresa, nomeContacto, "", "", "", "", None, criadoEm)
  {
    match Find(clientes, MesmaEmpresa(nomeEmpresa))
    case Some(i) => (clientes[i], clientes)
    case None =>
      var novo := NovoCliente(ClienteMinimo(nomeEmpresa, nomeContacto), id, criadoEm);
      (novo, clientes + [novo])
  }

  /** A second find-or-create with any case variant of the name finds the
      client the first one returned and adds nothing. */
  lemma BuscarOuCriarIdempotente(clientes: seq<Cliente>, nome1: string, contacto1: string, id1: string, t1: int,
                                 nome2: string, contacto2: string, id2: string, t2: int)
    requires Lower(nome1) == Lower(nome2)
    ensures var (c1, cs1) := BuscarOuCriar(clientes, nome1, contacto1, id1, t1);
            BuscarOuCriar(cs1, nome2, contacto2, id2, t2) == (c1, cs1)
  {
    var (c1, cs1) := BuscarOuCriar(clientes, nome1, contacto1, id1, t1);
    assert MesmaEmpresa(nome1) == MesmaEmpresa(nome2);
    if Find(clientes, MesmaEmpresa(nome1)).None? {
      var f := Find(cs1, MesmaEmpresa(nome2));
      assert MesmaEmpresa(nome2)(cs1[|clientes|]);
      assert f.Some? && f.value == |clientes|;
    }
  }

  /** No two clients whose company names differ only in case. */
  ghost predicate EmpresasDistintas(clientes: seq<Cliente>) {
    forall i, j :: 0 <= i < j < |clientes| ==> Lower(clientes[i].empresa) != Lower(clientes[j].empresa)
  }

  /** Find-or-create never adds a case variant of a name already present. */
  lemma BuscarOuCriarPreservaEmpresasDistintas(clientes: seq<Cliente>, nomeEmpresa: string, nomeContacto: string, id: string, criadoEm: int)
    requires EmpresasDistintas(clientes)
    ensures EmpresasDistintas(BuscarOuCriar(clientes, nomeEmpresa, nomeContacto, id, criadoEm).1)
  {
  }

  // ---------------------------------------------------------------------------
  // Backup: export and import

  /** The three collections. */
  datatype Dados = Dados(clientes: seq<Cliente>, tarefas: seq<Tarefa>, propostas: seq<Proposta>)

  /** The outcome of `JSON.parse` on an import text. A field of an object is
      `None` when the object lacks it or holds a falsy value there (`null`,
      `false`, `0`, `""`), which the import skips. */
  datatype Documento =
    | ErroDeSintaxe            // JSON.parse throws
    | Nulo                     // the text `null`: reading a field of it throws
    | OutroValor               // a number, string, boolean or array: every field reads as undefined
    | Objeto(clientes: Option<seq<Cliente>>, tarefas: Option<seq<Tarefa>>,
             propostas: Option<seq<Proposta>>, exportadoEm: Option<int>)

  /** `exportarDados`: the three collections and the time of the export. */
  function Exportar(dados: Dados, exportadoEm: int): Documento {
    Objeto(Some(dados.clientes), Some(dados.tarefas), Some(dados.propostas), Some(exportadoEm))
  }

  /** `importarDados`: whether it reports success, and the collections after it. */
  function Importar(dados: Dados, doc: Documento): (r: (bool, Dados))
    ensures !r.0 <==> doc.ErroDeSintaxe? || doc.Nulo?
    ensures !r.0 ==> r.1 == dados
    ensures doc.OutroValor? ==> r.1 == dados
    ensures doc.Objeto? ==>
      && r.1.clientes == (if doc.clientes.Some? then doc.clientes.value else dados.clientes)
      && r.1.tarefas == (if doc.tarefas.Some? then doc.tarefas.value else dados.tarefas)
      && r.1.propostas == (if doc.propostas.Some? then doc.propostas.value else dados.propostas)
  {
    match doc
    case ErroDeSintaxe => (false, dados)
    case Nulo => (false, dados)
    case OutroValor => (true, dados)
    case Objeto(cs, ts, ps, _) => (true, Dados(cs.GetOr(dados.clientes), ts.GetOr(dados.tarefas), ps.GetOr(dados.propostas)))
  }

  /** Importing an export restores exactly the exported collections, whatever
      the store held before; the export time plays no part. */
  lemma ImportarExportado(dados: Dados, antes: Dados, exportadoEm: int)
    ensures Importar(antes, Exportar(dados, exportadoEm)) == (true, dados)
  {
  }

  // ---------------------------------------------------------------------------
  // The store

  class Store {
    var clientes: seq<Cliente>
    var tarefas: seq<Tarefa>
    var propostas: seq<Proposta>

    function Conteudo(): Dados
      reads this
    {
      Dados(clientes, tarefas, propostas)
    }

    /** The first load: each collection is the stored one, or empty when its
        key is absent. */
    constructor Carregar(clientesGuardados: Option<seq<Cliente>>, tarefasGuardadas: Option<seq<Tarefa>>,
                         propostasGuardadas: Option<seq<Proposta>>)
      ensures clientes == clientesGuardados.GetOr([])
      ensures tarefas == tarefasGuardadas.GetOr([])
      ensures propostas == propostasGuardadas.GetOr([])
    {
      clientes := [];
      tarefas := [];
      propostas := [];
      new;
      if clientesGuardados.Some? { clientes := clientesGuardados.value; }
      if tarefasGuardadas.Some? { tarefas := tarefasGuardadas.value; }
      if propostasGuardadas.Some? { propostas := propostasGuardadas.value; }
    }

    method AdicionarCliente(draft: ClienteDraft, id: string, criadoEm: int) returns (novo: Cliente)
      modifies this
      ensures novo == NovoCliente(draft, id, criadoEm)
      ensures clientes == old(clientes) + [novo]
      ensures tarefas == old(tarefas) && propostas == old(propostas)
    {
      novo := NovoCliente(draft, id, criadoEm);
      clientes := clientes + [novo];
    }

    method AdicionarTarefa(draft: TarefaDraft, id: string, criadaEm: int) returns (nova: Tarefa)
      modifies this
      ensures nova == Tarefa(id, draft.cliente, draft.assunto, draft.proposta, draft.area, false, criadaEm)
      ensures tarefas == old(tarefas) + [nova]
      ensures clientes == old(clientes) && propostas == old(propostas)
    {
      nova := NovaTarefa(draft, id, criadaEm);
      tarefas := tarefas + [nova];
    }

    method AdicionarProposta(draft: PropostaDraft, id: string, criadaEm: int) returns (nova: Proposta)
      modifies this
      ensures nova == NovaProposta(old(propostas), draft, id, criadaEm)
      ensures forall p :: p in old(propostas) && p.cliente.id == draft.cliente.id ==> p.numeracao < nova.numeracao
      ensures (forall p :: p in old(propostas) ==> p.cliente.id != draft.cliente.id) ==> nova.numeracao == 1
      ensures propostas == old(propostas) + [nova]
      ensures NumeracaoUnica(old(propostas)) ==> NumeracaoUnica(propostas)
      ensures clientes == old(clientes) && tarefas == old(tarefas)
    {
      nova := NovaProposta(propostas, draft, id, criadaEm);
      if NumeracaoUnica(propostas) {
        AdicionarPropostaPreservaUnicidade(propostas, draft, id, criadaEm);
      }
      propostas := propostas + [nova];
    }

    method AtualizarTarefa(id: string, updates: TarefaPatch)
      modifies this
      ensures tarefas == AtualizarTarefas(old(tarefas), id, updates)
      ensures clientes == old(clientes) && propostas == old(propostas)
    {
      tarefas := AtualizarTarefas(tarefas, id, updates);
    }

    method AtualizarProposta(id: string, updates: PropostaPatch)
      modifies this
      ensures propostas == AtualizarPropostas(old(propostas), id, updates)
      ensures clientes == old(clientes) && tarefas == old(tarefas)
    {
      propostas := AtualizarPropostas(propostas, id, updates);
    }

    method AtualizarCliente(id: string, updates: ClientePatch)
      modifies this
      ensures clientes == AtualizarClientes(old(clientes), id, updates)
      ensures tarefas == old(tarefas) && propostas == old(propostas)
    {
      clientes := AtualizarClientes(clientes, id, updates);
    }

    method BuscarOuCriarCliente(nomeEmpresa: string, nomeContacto: string, id: string, criadoEm: int) returns (cliente: Cliente)
      modifies this
      ensures (cliente, clientes) == BuscarOuCriar(old(clientes), nomeEmpresa, nomeContacto, id, criadoEm)
      ensures tarefas == old(tarefas) && propostas == old(propostas)
    {
      var i := Find(clientes, MesmaEmpresa(nomeEmpresa));
      if i.Some? {
        cliente := clientes[i.value];
      } else {
        cliente := AdicionarCliente(ClienteMinimo(nomeEmpresa, nomeContacto), id, criadoEm);
      }
    }

    method ExportarDados(exportadoEm: int) returns (doc: Documento)
      ensures doc == Exportar(Conteudo(), exportadoEm)
    {
      doc := Objeto(Some(clientes), Some(tarefas), Some(propostas), Some(exportadoEm));
    }

    method ImportarDados(doc: Documento) returns (sucesso: bool)
      modifies this
      ensures (sucesso, Conteudo()) == Importar(old(Conteudo()), doc)
    {
      match doc {
        case ErroDeSintaxe => sucesso := false;
        case Nulo => sucesso := false;
        case OutroValor => sucesso := true;
        case Objeto(cs, ts, ps, _) =>
          if cs.Some? { clientes := cs.value; }
          if ts.Some? { tarefas := ts.value; }
          if ps.Some? { propostas := ps.value; }
          sucesso := true;
      }
    }
  }
}
