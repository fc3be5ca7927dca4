/** The earlier ledger (`desafio_DIO_sisten_bank_1-2.py`): a checking account
    that guards only against non-positive amounts and missing funds. Its
    `limite` and `limite_saques` are stored but never consulted, and its
    `registrar` methods run the operation without writing the history.
    Transactions and the history class are those of `Transacoes`, which the
    later version shares. */
module VersaoInicial {
  import opened Transacoes

  const AGENCIA: string := "0001"
  const LIMITE_PADRAO: int := 500
  const LIMITE_SAQUES_PADRAO: int := 3

  /** The balance after `t.registrar(conta)` on an account holding `saldo`:
      a withdrawal needs a positive amount not above the balance, a deposit a
      positive amount; a refused operation leaves the balance as it was. */
  function SaldoApos(saldo: int, t: Transacao): (r: int)
    ensures t.Saque? ==> (r < saldo <==> 0 < t.valor <= saldo) && (r == saldo || r == saldo - t.valor)
    ensures t.Deposito? ==> (r > saldo <==> t.valor > 0) && (r == saldo || r == saldo + t.valor)
    ensures t.Saque? && !(0 < t.valor <= saldo) ==> r == saldo
    ensures t.Deposito? && t.valor <= 0 ==> r == saldo
    ensures saldo >= 0 ==> r >= 0
  {
    match t
    case Saque(v) => if 0 < v <= saldo then saldo - v else saldo
    case Deposito(v) => if v > 0 then saldo + v else saldo
  }

  /** The balance after registering `ts` in order. */
  function SaldoAposTodas(saldo: int, ts: seq<Transacao>): int
    decreases |ts|
  {
    if ts == [] then saldo else SaldoAposTodas(SaldoApos(saldo, ts[0]), ts[1..])
  }

  /** Whatever is registered, a non-negative balance never turns negative. */
  lemma {:induction false} SaldoNuncaNegativo(saldo: int, ts: seq<Transacao>)
    requires saldo >= 0
    ensures SaldoAposTodas(saldo, ts) >= 0
    decreases |ts|
  {
    if ts != [] {
      SaldoNuncaNegativo(SaldoApos(saldo, ts[0]), ts[1..]);
    }
  }

  /** Every accepted operation moves the balance by its amount, so the
      balance after a run lies between the initial balance minus all the
      withdrawal amounts and plus all the deposit amounts. */
  function Movimentado(ts: seq<Transacao>, saque: bool): (n: nat)
    decreases |ts|
  {
    if ts == [] then 0
    else
      var v := ts[0].valor;
      (if ts[0].Saque? == saque && v > 0 then v else 0) + Movimentado(ts[1..], saque)
  }

  lemma {:induction false} SaldoEntreLimites(saldo: int, ts: seq<Transacao>)
    ensures saldo - Movimentado(ts, true) <= SaldoAposTodas(saldo, ts) <= saldo + Movimentado(ts, false)
    decreases |ts|
  {
    if ts != [] {
      SaldoEntreLimites(SaldoApos(saldo, ts[0]), ts[1..]);
    }
  }

  /** A client (`Cliente` and `PessoaFisica` in one class). */
  class PessoaFisica {
    const cpf: string
    const nome: string
    const dataNascimento: string
    const endereco: string
    var contas: seq<ContaCorrente>

    constructor (cpf: string, nome: string, dataNascimento: string, endereco: string)
      ensures this.cpf == cpf && this.nome == nome
      ensures this.dataNascimento == dataNascimento && this.endereco == endereco
      ensures contas == []
    {
      this.cpf := cpf;
      this.nome := nome;
      this.dataNascimento := dataNascimento;
      this.endereco := endereco;
      contas := [];
    }

    /** `adicionar_conta`: the account goes at the end; earlier ones stay. */
    method AdicionarConta(conta: ContaCorrente)
      modifies this
      ensures contas == old(contas) + [conta]
      ensures |contas| == |old(contas)| + 1 && contas[..|old(contas)|] == old(contas)
    {
      contas := contas + [conta];
    }

    /** `realizar_transacao`: hands the transaction to `registrar`. */
    method RealizarTransacao(conta: ContaCorrente, t: Transacao)
      modifies conta
      ensures conta.saldo == SaldoApos(old(conta.saldo), t)
      ensures conta.historico.transacoes == old(conta.historico.transacoes)
    {
      Registrar(t, conta);
    }
  }

  /** A checking account (`Conta` and `ContaCorrente` in one class). */
  class ContaCorrente {
    var saldo: int
    const numero: string
    const agencia: string
    const cliente: PessoaFisica
    const historico: Historico
    const limite: int
    const limiteSaques: int

    /** A new account: balance 0, agency "0001", an empty history. */
    constructor (numero: string, cliente: PessoaFisica, limite: int, limiteSaques: int)
      ensures saldo == 0 && agencia == AGENCIA
      ensures fresh(historico) && historico.transacoes == []
      ensures this.numero == numero && this.cliente == cliente
      ensures this.limite == limite && this.limiteSaques == limiteSaques
    {
      saldo := 0;
      this.numero := numero;
      agencia := AGENCIA;
      this.cliente := cliente;
      historico := new Historico();
      this.limite := limite;
      this.limiteSaques := limiteSaques;
    }

    /** `sacar`: a non-positive amount, then an amount above the balance, is
        refused; otherwise the amount is subtracted. Neither the ceiling nor
        the withdrawal count is looked at. */
    method Sacar(valor: int) returns (ok: bool)
      modifies this
      ensures ok <==> 0 < valor <= old(saldo)
      ensures saldo == if ok then old(saldo) - valor else old(saldo)
      ensures old(saldo) >= 0 ==> saldo >= 0
    {
      if valor <= 0 {
        ok := false;
      } else if valor > saldo {
        ok := false;
      } else {
        saldo := saldo - valor;
        ok := true;
      }
    }

    /** `depositar`: a positive amount is added; any other is refused. */
    method Depositar(valor: int) returns (ok: bool)
      modifies this
      ensures ok <==> valor > 0
      ensures saldo == if ok then old(saldo) + valor else old(saldo)
    {
      if valor > 0 {
        saldo := saldo + valor;
        ok := true;
      } else {
        ok := false;
      }
    }
  }

  /** `Saque.registrar` / `Deposito.registrar`: dispatch to the matching
      operation and discard its result; the history is not written. */
  method Registrar(t: Transacao, conta: ContaCorrente)
    modifies conta
    ensures conta.saldo == SaldoApos(old(conta.saldo), t)
    ensures conta.historico.transacoes == old(conta.historico.transacoes)
  {
    match t {
      case Saque(v) =>
        var _ := conta.Sacar(v);
      case Deposito(v) =>
        var _ := conta.Depositar(v);
    }
  }

  /** The ceiling is not enforced: with the default ceiling of 500 and a
      balance of 1000, a withdrawal of 800 succeeds. */
  method SaqueAcimaDoLimite() returns (ok: bool, saldo: int)
    ensures ok && saldo == 200
  {
    var cliente := new PessoaFisica("12345678901", "João", "01-01-1990", "Rua A, 123");
    var conta := new ContaCorrente("1", cliente, LIMITE_PADRAO, LIMITE_SAQUES_PADRAO);
    var _ := conta.Depositar(1000);
    ok := conta.Sacar(800);
    saldo := conta.saldo;
  }

  /** The withdrawal count is not enforced either: with the default maximum
      of 3, a fourth withdrawal succeeds, and the history stays empty
      throughout. */
  method QuartoSaque() returns (ok: bool, saldo: int, entradas: nat)
    ensures ok && saldo == 6 && entradas == 0
  {
    var cliente := new PessoaFisica("12345678901", "João", "01-01-1990", "Rua A, 123");
    var conta := new ContaCorrente("1", cliente, LIMITE_PADRAO, LIMITE_SAQUES_PADRAO);
    cliente.AdicionarConta(conta);
    cliente.RealizarTransacao(conta, Deposito(10));
    cliente.RealizarTransacao(conta, Saque(1));
    cliente.RealizarTransacao(conta, Saque(1));
    cliente.RealizarTransacao(conta, Saque(1));
    ok := conta.Sacar(1);
    saldo := conta.saldo;
    entradas := |conta.historico.transacoes|;
  }
}
