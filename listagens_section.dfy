/** The reports page (src/components/ListagensSection.tsx): which tasks,
    proposals or clients a report lists, and the negotiation time of a client.
    A date input is `None` while it is empty. */
module ListagensSection {
  import opened Optional
  import opened Types
  import opened Sequences

  datatype TipoListagem = ListarTarefas | ListarPropostas | ListarClientes
  datatype FiltroStatus = Todos | Pendentes | Finalizadas

  /** The date range applies only when both dates are filled in. */
  predicate ComPeriodo(inicio: Option<int>, fim: Option<int>) {
    inicio.Some? && fim.Some?
  }

  /** Inclusive at both ends. */
  predicate NoPeriodo(data: int, inicio: Option<int>, fim: Option<int>)
    requires ComPeriodo(inicio, fim)
  {
    inicio.value <= data <= fim.value
  }

  function TarefasListadas(tarefas: seq<Tarefa>, status: FiltroStatus): seq<Tarefa> {
    match status
    case Pendentes => Filter(tarefas, (t: Tarefa) => !t.concluida)
    case Finalizadas => Filter(tarefas, (t: Tarefa) => t.concluida)
    case Todos => tarefas
  }

  /** The status filter of the proposal report compares with the older status
      names `pendente` and `final`. */
  function PropostasPorStatus(propostas: seq<Proposta>, status: FiltroStatus): seq<Proposta> {
    match status
    case Pendentes => Filter(propostas, (p: Proposta) => p.situacao == "pendente")
    case Finalizadas => Filter(propostas, (p: Proposta) => p.situacao == "final")
    case Todos => propostas
  }

  function PropostasListadas(propostas: seq<Proposta>, status: FiltroStatus, inicio: Option<int>, fim: Option<int>)
    : seq<Proposta>
  {
    var porStatus := PropostasPorStatus(propostas, status);
    if ComPeriodo(inicio, fim) then
      Filter(porStatus, (p: Proposta) => NoPeriodo(p.dataCreacao, inicio, fim))
    else porStatus
  }

  /** Some proposal whose embedded client has exactly this company name was
      created within the range. */
  predicate TemPropostaNoPeriodo(c: Cliente, propostas: seq<Proposta>, inicio: Option<int>, fim: Option<int>)
    requires ComPeriodo(inicio, fim)
  {
    Any(Filter(propostas, (p: Proposta) => p.cliente.empresa == c.empresa),
        (p: Proposta) => NoPeriodo(p.dataCreacao, inicio, fim))
  }

  function ClientesListados(clientes: seq<Cliente>, propostas: seq<Proposta>, inicio: Option<int>, fim: Option<int>)
    : seq<Cliente>
  {
    if ComPeriodo(inicio, fim) then
      Filter(clientes, (c: Cliente) => TemPropostaNoPeriodo(c, propostas, inicio, fim))
    else clientes
  }

  datatype Listagem = Tarefas(tarefas: seq<Tarefa>) | Propostas(propostas: seq<Proposta>) | Clientes(clientes: seq<Cliente>)

  /** `filtrarDados`. */
  function FiltrarDados(tipo: TipoListagem, status: FiltroStatus, inicio: Option<int>, fim: Option<int>,
                        tarefas: seq<Tarefa>, propostas: seq<Proposta>, clientes: seq<Cliente>): Listagem
  {
    match tipo
    case ListarTarefas => Tarefas(TarefasListadas(tarefas, status))
    case ListarPropostas => Propostas(PropostasListadas(propostas, status, inicio, fim))
    case ListarClientes => Clientes(ClientesListados(clientes, propostas, inicio, fim))
  }

  /** The task report keeps the open tasks, the completed ones, or all, in
      their stored order. */
  lemma TarefasListadasSpec(tarefas: seq<Tarefa>, status: FiltroStatus)
    ensures forall t :: t in TarefasListadas(tarefas, status) <==>
      t in tarefas && (status == Pendentes ==> !t.concluida) && (status == Finalizadas ==> t.concluida)
    ensures Subsequence(TarefasListadas(tarefas, status), tarefas)
  {
    match status
    case Pendentes => FilterIsSubsequence(tarefas, (t: Tarefa) => !t.concluida);
    case Finalizadas => FilterIsSubsequence(tarefas, (t: Tarefa) => t.concluida);
    case Todos => SubsequenceReflexive(tarefas);
  }

  lemma PropostasPorStatusSpec(propostas: seq<Proposta>, status: FiltroStatus)
    ensures forall p :: p in PropostasPorStatus(propostas, status) <==>
      && p in propostas
      && (status == Pendentes ==> p.situacao == "pendente")
      && (status == Finalizadas ==> p.situacao == "final")
    ensures Subsequence(PropostasPorStatus(propostas, status), propostas)
  {
    match status
    case Pendentes => FilterIsSubsequence(propostas, (p: Proposta) => p.situacao == "pendente");
    case Finalizadas => FilterIsSubsequence(propostas, (p: Proposta) => p.situacao == "final");
    case Todos => SubsequenceReflexive(propostas);
  }

  /** The proposal report keeps, in stored order, the proposals with the
      selected older status name that were created within the range, when
      both dates are given. */
  lemma PropostasListadasSpec(propostas: seq<Proposta>, status: FiltroStatus, inicio: Option<int>, fim: Option<int>)
    ensures forall p :: p in PropostasListadas(propostas, status, inicio, fim) <==>
      && p in propostas
      && (status == Pendentes ==> p.situacao == "pendente")
      && (status == Finalizadas ==> p.situacao == "final")
      && (ComPeriodo(inicio, fim) ==> NoPeriodo(p.dataCreacao, inicio, fim))
    ensures Subsequence(PropostasListadas(propostas, status, inicio, fim), propostas)
  {
    var porStatus := PropostasPorStatus(propostas, status);
    PropostasPorStatusSpec(propostas, status);
    if ComPeriodo(inicio, fim) {
      var noPeriodo := (p: Proposta) => NoPeriodo(p.dataCreacao, inicio, fim);
      FilterIsSubsequence(porStatus, noPeriodo);
      SubsequenceTransitive(Filter(porStatus, noPeriodo), porStatus, propostas);
    }
  }

  /** With the status filter set to pending or final, no proposal carrying a
      status of the typed vocabulary is ever listed. */
  lemma PropostasTipadasNuncaListadas(propostas: seq<Proposta>, status: FiltroStatus, inicio: Option<int>, fim: Option<int>)
    requires status != Todos
    ensures forall p :: p in PropostasListadas(propostas, status, inicio, fim) ==> !SituacaoTipada(p.situacao)
  {
    PropostasListadasSpec(propostas, status, inicio, fim);
  }

  /** The client report keeps, in stored order, every client when the range
      is incomplete, and otherwise the clients with a proposal (matched by
      exact company name) created within the range; the status filter plays
      no part. */
  lemma ClientesListadosSpec(clientes: seq<Cliente>, propostas: seq<Proposta>, inicio: Option<int>, fim: Option<int>,
                             s1: FiltroStatus, s2: FiltroStatus, tarefas: seq<Tarefa>)
    ensures !ComPeriodo(inicio, fim) ==> ClientesListados(clientes, propostas, inicio, fim) == clientes
    ensures ComPeriodo(inicio, fim) ==> forall c :: c in ClientesListados(clientes, propostas, inicio, fim) <==>
      c in clientes && exists p :: p in propostas && p.cliente.empresa == c.empresa && NoPeriodo(p.dataCreacao, inicio, fim)
    ensures Subsequence(ClientesListados(clientes, propostas, inicio, fim), clientes)
    ensures FiltrarDados(ListarClientes, s1, inicio, fim, tarefas, propostas, clientes)
         == FiltrarDados(ListarClientes, s2, inicio, fim, tarefas, propostas, clientes)
  {
    if ComPeriodo(inicio, fim) {
      var mantem := (c: Cliente) => TemPropostaNoPeriodo(c, propostas, inicio, fim);
      FilterIsSubsequence(clientes, mantem);
      forall c ensures mantem(c) <==> exists p :: p in propostas && p.cliente.empresa == c.empresa && NoPeriodo(p.dataCreacao, inicio, fim) {
        var doCliente := Filter(propostas, (p: Proposta) => p.cliente.empresa == c.empresa);
        if mantem(c) {
          var i :| 0 <= i < |doCliente| && NoPeriodo(doCliente[i].dataCreacao, inicio, fim);
          assert doCliente[i] in doCliente;
        }
        if exists p :: p in propostas && p.cliente.empresa == c.empresa && NoPeriodo(p.dataCreacao, inicio, fim) {
          var p :| p in propostas && p.cliente.empresa == c.empresa && NoPeriodo(p.dataCreacao, inicio, fim);
          var i :| 0 <= i < |propostas| && propostas[i] == p;
          assert p in doCliente;
          var j :| 0 <= j < |doCliente| && doCliente[j] == p;
        }
      }
    } else {
      SubsequenceReflexive(clientes);
    }
  }

  const MilissegundosPorDia := 1000 * 60 * 60 * 24

  /** The creation date of the client's earliest proposal (matched by exact
      company name): `Math.min` over their dates. */
  function PrimeiraProposta(cliente: Cliente, propostas: seq<Proposta>): (r: Option<int>)
    ensures r.None? <==> forall p :: p in propostas ==> p.cliente.empresa != cliente.empresa
    ensures r.Some? ==> exists p :: p in propostas && p.cliente.empresa == cliente.empresa && p.dataCreacao == r.value
    ensures r.Some? ==> forall q :: q in propostas && q.cliente.empresa == cliente.empresa ==> r.value <= q.dataCreacao
  {
    var doCliente := Filter(propostas, (p: Proposta) => p.cliente.empresa == cliente.empresa);
    if |doCliente| > 0 then
      var datas := Map(doCliente, (p: Proposta) => p.dataCreacao);
      var primeira := Min(datas);
      assert exists p :: p in propostas && p.cliente.empresa == cliente.empresa && p.dataCreacao == primeira by {
        var k :| 0 <= k < |datas| && datas[k] == primeira;
        assert doCliente[k] in doCliente;
      }
      assert forall q :: q in propostas && q.cliente.empresa == cliente.empresa ==> primeira <= q.dataCreacao by {
        forall q | q in propostas && q.cliente.empresa == cliente.empresa ensures primeira <= q.dataCreacao {
          var j :| 0 <= j < |doCliente| && doCliente[j] == q;
          assert datas[j] in datas;
        }
      }
      Some(primeira)
    else
      assert forall p :: p in propostas ==> p.cliente.empresa != cliente.empresa by {
        forall p | p in propostas ensures p.cliente.empresa != cliente.empresa {
          var i :| 0 <= i < |propostas| && propostas[i] == p;
        }
      }
      None
  }

  /** `Math.floor(x / d)` for a positive `d`: Dafny's division by a positive
      divisor already rounds down. */
  function Piso(x: int, d: int): (q: int)
    requires d > 0
    ensures q * d <= x < (q + 1) * d
  {
    x / d
  }

  /** The negotiation time shown for a client: whole days, rounded down, from
      its earliest proposal (matched by exact company name) to `agora`, or 0
      when it has none. */
  function TempoNegociacao(cliente: Cliente, propostas: seq<Proposta>, agora: int): (dias: int)
    ensures (forall p :: p in propostas ==> p.cliente.empresa != cliente.empresa) ==> dias == 0
    ensures (exists p :: p in propostas && p.cliente.empresa == cliente.empresa) ==>
      exists p :: p in propostas && p.cliente.empresa == cliente.empresa
        && (forall q :: q in propostas && q.cliente.empresa == cliente.empresa ==> p.dataCreacao <= q.dataCreacao)
        && dias * MilissegundosPorDia <= agora - p.dataCreacao < (dias + 1) * MilissegundosPorDia
  {
    match PrimeiraProposta(cliente, propostas)
    case Some(primeira) => Piso(agora - primeira, MilissegundosPorDia)
    case None => 0
  }

  /** How the negotiation time is shown: a number of days, or `-`. */
  datatype TempoExibido = Dias(n: int) | Traco

  function ExibirTempo(dias: int): (r: TempoExibido)
    ensures r.Dias? <==> dias > 0
    ensures r.Dias? ==> r.n == dias
  {
    if dias > 0 then Dias(dias) else Traco
  }
}
