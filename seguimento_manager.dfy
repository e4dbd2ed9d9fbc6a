/** The follow-up list of a proposal (src/components/SeguimentoManager.tsx):
    the submit guard, the type labels, and the numbered list shown newest
    first. */
module SeguimentoManager {
  import opened Optional
  import opened Types
  import opened Text
  import opened Sorting

  /** `handleSubmit`: hands the form to `onAddSeguimento` as it is (the details
      are not trimmed), unless the details are blank. */
  function SubmeterSeguimento(novo: SeguimentoDraft): (r: Option<SeguimentoDraft>)
    ensures r.None? <==> IsBlank(novo.detalhes)
    ensures r.Some? ==> r.value == novo
  {
    TrimEmptyIffBlank(novo.detalhes);
    if Trim(novo.detalhes) == "" then None else Some(novo)
  }

  /** `getTipoLabel`: the four named types have their own label; every other
      value, `outro` included, reads `Outro`. */
  function RotuloTipo(tipo: string): (r: string)
    ensures tipo == "proposta" ==> r == "Proposta"
    ensures tipo == "reuniao" ==> r == "Reunião"
    ensures tipo == "chamada" ==> r == "Chamada"
    ensures tipo == "email" ==> r == "Email"
    ensures r == "Outro" <==> tipo !in {"proposta", "reuniao", "chamada", "email"}
  {
    match tipo
    case "proposta" => "Proposta"
    case "reuniao" => "Reunião"
    case "chamada" => "Chamada"
    case "email" => "Email"
    case _ => "Outro"
  }

  /** A follow-up as listed: the record and its number `numero`. */
  datatype SeguimentoNumerado = SeguimentoNumerado(seguimento: Seguimento, numero: int)

  /** The comparator `(a, b) => date(a) - date(b)`: oldest first. */
  function Data(s: Seguimento): int {
    s.data
  }

  /** `.map((s, index) => ({ ...s, numero: index + 1 }))`. */
  function Numerar(s: seq<Seguimento>): (r: seq<SeguimentoNumerado>)
    ensures |r| == |s|
  {
    seq(|s|, i requires 0 <= i < |s| => SeguimentoNumerado(s[i], i + 1))
  }

  function Inverter<T>(s: seq<T>): (r: seq<T>)
    ensures |r| == |s|
  {
    seq(|s|, i requires 0 <= i < |s| => s[|s| - 1 - i])
  }

  /** `seguimentosOrdenados` as a value: sorted oldest first, numbered from
      1, then reversed. */
  function Ordenados(seguimentos: seq<Seguimento>): seq<SeguimentoNumerado> {
    Inverter(Numerar(SortBy(seguimentos, Data)))
  }

  /** The list shown holds the proposal's follow-ups, each once, newest first;
      the oldest is numbered 1 and the numbers run n, n - 1, ..., 1 down the
      list. */
  lemma OrdenadosSpec(seguimentos: seq<Seguimento>)
    ensures |Ordenados(seguimentos)| == |seguimentos|
    ensures multiset(seq(|seguimentos|, i requires 0 <= i < |seguimentos| => Ordenados(seguimentos)[i].seguimento))
            == multiset(seguimentos)
    ensures forall i, j :: 0 <= i < j < |seguimentos| ==>
      Ordenados(seguimentos)[i].seguimento.data >= Ordenados(seguimentos)[j].seguimento.data
    ensures forall k :: 0 <= k < |seguimentos| ==> Ordenados(seguimentos)[k].numero == |seguimentos| - k
  {
    var n := |seguimentos|;
    var sorted := SortBy(seguimentos, Data);
    var r := Ordenados(seguimentos);
    SortByPermutes(seguimentos, Data);
    SortBySorted(seguimentos, Data);
    var shown := seq(n, i requires 0 <= i < n => r[i].seguimento);
    assert shown == Inverter(sorted);
    ReversePermutes(sorted);
  }

  lemma {:induction false} ReversePermutes<T>(s: seq<T>)
    ensures multiset(Inverter(s)) == multiset(s)
    decreases |s|
  {
    if s != [] {
      ReversePermutes(s[1..]);
      assert Inverter(s) == Inverter(s[1..]) + [s[0]];
      assert s == [s[0]] + s[1..];
    }
  }

  /** `seguimentosOrdenados`: `.sort` reorders the caller's array itself, oldest
      first; the list returned is numbered and reversed from there. */
  method OrdenarSeguimentos(seguimentos: array<Seguimento>) returns (r: seq<SeguimentoNumerado>)
    modifies seguimentos
    ensures seguimentos[..] == SortBy(old(seguimentos[..]), Data)
    ensures r == Ordenados(old(seguimentos[..]))
  {
    SortInPlace(seguimentos, Data);
    var n := seguimentos.Length;
    r := seq(n, i requires 0 <= i < n reads seguimentos => SeguimentoNumerado(seguimentos[n - 1 - i], n - i));
  }
}
