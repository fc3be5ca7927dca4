/** Transactions and the per-account history log (`Transacao`, `Saque`,
    `Deposito`, `Historico`). Amounts are integers in minor units; the
    timestamp written with each entry is an opaque string supplied by the
    caller. */
module Transacoes {

  /** A transaction is an immutable value: its kind and its amount. */
  datatype Transacao = Saque(valor: int) | Deposito(valor: int)

  /** The `tipo` tags written into the history: the transaction's class name. */
  const SAQUE: string := "Saque"
  const DEPOSITO: string := "Deposito"

  function NomeDaClasse(t: Transacao): (r: string)
    ensures r == SAQUE <==> t.Saque?
    ensures r == DEPOSITO <==> t.Deposito?
  {
    match t
    case Saque(_) => SAQUE
    case Deposito(_) => DEPOSITO
  }

  /** One history entry: the dictionary {tipo, valor, data}. */
  datatype Entrada = Entrada(tipo: string, valor: int, data: string)

  /** The entry `adicionar_transacao` writes for `t` at time `data`. */
  function Registro(t: Transacao, data: string): Entrada
  {
    Entrada(NomeDaClasse(t), t.valor, data)
  }

  /** Every entry carries one of the two tags a transaction can write. */
  predicate TiposValidos(h: seq<Entrada>)
  {
    forall i :: 0 <= i < |h| ==> h[i].tipo == SAQUE || h[i].tipo == DEPOSITO
  }

  /** Number of entries tagged "Saque": the length of the list comprehension
      that `ContaCorrente.sacar` builds over the history. */
  function ContaSaques(h: seq<Entrada>): (n: nat)
    ensures n <= |h|
    ensures n == 0 <==> forall i :: 0 <= i < |h| ==> h[i].tipo != SAQUE
  {
    if h == [] then 0
    else
      var ultimo := h[|h| - 1];
      assert forall i :: 0 <= i < |h| - 1 ==> h[..|h| - 1][i] == h[i];
      ContaSaques(h[..|h| - 1]) + (if ultimo.tipo == SAQUE then 1 else 0)
  }

  /** The balance the history accounts for: deposits minus withdrawals;
      entries with any other tag contribute nothing. */
  function SaldoDoExtrato(h: seq<Entrada>): int
  {
    if h == [] then 0
    else
      var ultimo := h[|h| - 1];
      SaldoDoExtrato(h[..|h| - 1])
      + (if ultimo.tipo == DEPOSITO then ultimo.valor
         else if ultimo.tipo == SAQUE then -ultimo.valor
         else 0)
  }

  lemma ContaSaquesAnexa(h: seq<Entrada>, e: Entrada)
    ensures ContaSaques(h + [e]) == ContaSaques(h) + (if e.tipo == SAQUE then 1 else 0)
  {
    assert (h + [e])[..|h|] == h;
  }

  lemma SaldoDoExtratoAnexa(h: seq<Entrada>, e: Entrada)
    ensures SaldoDoExtrato(h + [e]) == SaldoDoExtrato(h)
      + (if e.tipo == DEPOSITO then e.valor else if e.tipo == SAQUE then -e.valor else 0)
  {
    assert (h + [e])[..|h|] == h;
  }

  /** The (tipo, valor) projection of a history: everything except the
      timestamps. */
  function Resumo(h: seq<Entrada>): (r: seq<(string, int)>)
    ensures |r| == |h|
    ensures forall i :: 0 <= i < |h| ==> r[i] == (h[i].tipo, h[i].valor)
  {
    if h == [] then []
    else Resumo(h[..|h| - 1]) + [(h[|h| - 1].tipo, h[|h| - 1].valor)]
  }

  /** `Historico`: an append-only list of entries. */
  class Historico {
    var transacoes: seq<Entrada>

    constructor ()
      ensures transacoes == []
    {
      transacoes := [];
    }

    /** Appends the entry for `t`, stamped with `data`, at the end. */
    method AdicionarTransacao(t: Transacao, data: string)
      modifies this
      ensures transacoes == old(transacoes) + [Registro(t, data)]
    {
      transacoes := transacoes + [Registro(t, data)];
    }
  }
}
