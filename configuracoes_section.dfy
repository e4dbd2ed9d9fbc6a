/** The settings page (src/components/ConfiguracoesSection.tsx): the import
    guard, the statistics, and the password gate of the data wipe.
    `JSON.parse` is the parameter `parse`; the browser storage of the wipe is
    a map from storage key to stored text. */
module ConfiguracoesSection {
  import opened Optional
  import opened Types
  import opened Sequences
  import opened LocalStorage

  /** The message `handleImportar` shows. */
  datatype Aviso = TextoVazio | Importado | ErroNaImportacao

  /** `handleImportar`: an empty text is refused before the store is called;
      otherwise the parsed text is imported, and the text box is cleared only
      when the import reports success. */
  method HandleImportar(store: Store, texto: string, parse: string -> Documento) returns (textoDepois: string, aviso: Aviso)
    modifies store
    ensures texto == "" ==> aviso == TextoVazio && textoDepois == texto && store.Conteudo() == old(store.Conteudo())
    ensures texto != "" ==>
      var (sucesso, dados) := Importar(old(store.Conteudo()), parse(texto));
      && store.Conteudo() == dados
      && aviso == (if sucesso then Importado else ErroNaImportacao)
      && textoDepois == (if sucesso then "" else texto)
  {
    if texto == "" {
      return texto, TextoVazio;
    }
    var sucesso := store.ImportarDados(parse(texto));
    if sucesso {
      textoDepois, aviso := "", Importado;
    } else {
      textoDepois, aviso := texto, ErroNaImportacao;
    }
  }

  datatype Estatisticas = Estatisticas(
    totalClientes: nat,
    totalTarefas: nat,
    tarefasConcluidas: nat,
    totalPropostas: nat,
    propostasFinalizadas: nat,
    propostasPendentes: nat)

  predicate Finalizada(p: Proposta) {
    p.situacao == ConcluidaSucesso || p.situacao == ConcluidaSemSucesso
  }

  /** `estatisticas`. */
  function CalcularEstatisticas(clientes: seq<Cliente>, tarefas: seq<Tarefa>, propostas: seq<Proposta>): Estatisticas {
    Estatisticas(
      |clientes|,
      |tarefas|,
      |Filter(tarefas, (t: Tarefa) => t.concluida)|,
      |propostas|,
      |Filter(propostas, Finalizada)|,
      |Filter(propostas, (p: Proposta) => p.situacao == Ativa)|)
  }

  /** At most all tasks are completed and at most all proposals are finished
      or pending; with only statuses of the typed vocabulary, every proposal
      is exactly one of finished and pending. */
  lemma EstatisticasSpec(clientes: seq<Cliente>, tarefas: seq<Tarefa>, propostas: seq<Proposta>)
    ensures var e := CalcularEstatisticas(clientes, tarefas, propostas);
      && e.tarefasConcluidas <= e.totalTarefas
      && e.propostasFinalizadas + e.propostasPendentes <= e.totalPropostas
      && ((forall p :: p in propostas ==> SituacaoTipada(p.situacao)) ==>
            e.propostasFinalizadas + e.propostasPendentes == e.totalPropostas)
  {
    var ativa := (p: Proposta) => p.situacao == Ativa;
    var ambas := (p: Proposta) => Finalizada(p) || p.situacao == Ativa;
    FilterDisjoint(propostas, Finalizada, ativa, ambas);
    if forall p :: p in propostas ==> SituacaoTipada(p.situacao) {
      FilterAll(propostas, ambas);
    }
  }

  /** The password that unlocks the wipe. */
  const Senha := "503708798"

  /** The three storage keys the wipe removes. */
  const ChavesDosDados: set<string> := {"almadados-clientes", "almadados-tarefas", "almadados-propostas"}

  datatype Limpeza = DadosLimpos | SenhaIncorreta | NadaFeito

  /** `handleLimparDados`: `senha` is what the prompt returned (`None` when it
      was cancelled) and `confirmado` the answer to the confirmation, which is
      asked only after the right password. */
  function LimparDados<V>(armazenamento: map<string, V>, senha: Option<string>, confirmado: bool): (r: (Limpeza, map<string, V>))
    ensures r.0 == DadosLimpos <==> senha == Some(Senha) && confirmado
    ensures r.0 == SenhaIncorreta <==> senha.Some? && senha.value != Senha
    ensures r.0 == DadosLimpos ==>
      (r.1.Keys == armazenamento.Keys - ChavesDosDados && forall k :: k in r.1 ==> r.1[k] == armazenamento[k])
    ensures r.0 != DadosLimpos ==> r.1 == armazenamento
  {
    if senha == Some(Senha) then
      if confirmado then (DadosLimpos, armazenamento - ChavesDosDados) else (NadaFeito, armazenamento)
    else if senha.Some? then (SenhaIncorreta, armazenamento)
    else (NadaFeito, armazenamento)
  }
}
