/** Clients, checking accounts and the validate-then-record protocol
    (`PessoaFisica`, `Conta`/`ContaCorrente`, `Saque.registrar`,
    `Deposito.registrar`). The abstract state of an account is the value
    `EstadoConta`; `Aplicar` says what one registered transaction does to it,
    and the class methods are proved against it. */
module Contas {
  import opened Transacoes
  import opened Formato

  const LIMITE_PADRAO: int := 500
  const LIMITE_SAQUES_PADRAO: int := 3
  const AGENCIA: string := "0001"

  /** Balance, per-withdrawal ceiling, maximum withdrawal count and history. */
  datatype EstadoConta = EstadoConta(
    saldo: int,
    limite: int,
    limiteSaques: int,
    transacoes: seq<Entrada>)

  /** Which message a withdrawal ends with. */
  datatype Veredito = Aceito | LimiteExcedido | SaquesExcedidos | SaldoInsuficiente | ValorInvalido

  /** `ContaCorrente.sacar` followed by `Conta.sacar` and
      `_realizar_operacao`: ceiling, then withdrawal count, then funds, then
      positivity; the first check that fails decides the message. */
  function VereditoSaque(valor: int, e: EstadoConta): (v: Veredito)
    ensures v == Aceito <==>
      0 < valor && valor <= e.limite && ContaSaques(e.transacoes) < e.limiteSaques && valor <= e.saldo
    ensures v == LimiteExcedido <==> valor > e.limite
    ensures v == SaquesExcedidos <==> valor <= e.limite && ContaSaques(e.transacoes) >= e.limiteSaques
    ensures v == SaldoInsuficiente <==>
      valor <= e.limite && ContaSaques(e.transacoes) < e.limiteSaques && valor > e.saldo
    ensures v == ValorInvalido <==>
      valor <= e.limite && ContaSaques(e.transacoes) < e.limiteSaques && valor <= e.saldo && valor <= 0
  {
    if valor > e.limite then LimiteExcedido
    else if ContaSaques(e.transacoes) >= e.limiteSaques then SaquesExcedidos
    else if valor > e.saldo then SaldoInsuficiente
    else if valor <= 0 then ValorInvalido
    else Aceito
  }

  /** Whether the account operation behind `t` returns True. */
  predicate Aceita(e: EstadoConta, t: Transacao)
  {
    match t
    case Deposito(v) => v > 0
    case Saque(v) => VereditoSaque(v, e) == Aceito
  }

  /** The change an accepted `t` makes to the balance. */
  function Efeito(t: Transacao): int
  {
    match t
    case Deposito(v) => v
    case Saque(v) => -v
  }

  /** `t.registrar(conta)`: run the operation; record `t` only if it succeeded. */
  function Aplicar(e: EstadoConta, t: Transacao, data: string): (r: EstadoConta)
    ensures r.limite == e.limite && r.limiteSaques == e.limiteSaques
    ensures Aceita(e, t) ==> r.transacoes == e.transacoes + [Registro(t, data)]
    ensures !Aceita(e, t) ==> r == e
    ensures r.saldo - e.saldo == SaldoDoExtrato(r.transacoes) - SaldoDoExtrato(e.transacoes)
  {
    if Aceita(e, t) then
      SaldoDoExtratoAnexa(e.transacoes, Registro(t, data));
      e.(saldo := e.saldo + Efeito(t), transacoes := e.transacoes + [Registro(t, data)])
    else e
  }

  /** Registers a sequence of (transaction, timestamp) pairs in order. */
  function AplicarTodas(e: EstadoConta, ps: seq<(Transacao, string)>): EstadoConta
    decreases |ps|
  {
    if ps == [] then e else AplicarTodas(Aplicar(e, ps[0].0, ps[0].1), ps[1..])
  }

  /** The history is a truthful log: the balance is what the recorded deposits
      and withdrawals add up to, it is not negative, and no more withdrawals
      are recorded than the account allows. */
  predicate EstadoConsistente(e: EstadoConta)
  {
    && e.saldo >= 0
    && e.saldo == SaldoDoExtrato(e.transacoes)
    && ContaSaques(e.transacoes) <= e.limiteSaques
    && TiposValidos(e.transacoes)
  }

  lemma {:induction false} AplicarPreservaConsistencia(e: EstadoConta, t: Transacao, data: string)
    requires EstadoConsistente(e)
    ensures EstadoConsistente(Aplicar(e, t, data))
  {
    if Aceita(e, t) {
      ContaSaquesAnexa(e.transacoes, Registro(t, data));
      SaldoDoExtratoAnexa(e.transacoes, Registro(t, data));
    }
  }

  lemma {:induction false} ExecucaoConsistente(e: EstadoConta, ps: seq<(Transacao, string)>)
    requires EstadoConsistente(e)
    ensures EstadoConsistente(AplicarTodas(e, ps))
    decreases |ps|
  {
    if ps != [] {
      AplicarPreservaConsistencia(e, ps[0].0, ps[0].1);
      ExecucaoConsistente(Aplicar(e, ps[0].0, ps[0].1), ps[1..]);
    }
  }

  /** An account that starts at balance 0 with an empty history, and changes
      only through `registrar`, keeps a truthful history. */
  lemma {:induction false} ContaNovaConsistente(limite: int, limiteSaques: nat, ps: seq<(Transacao, string)>)
    ensures EstadoConsistente(AplicarTodas(EstadoConta(0, limite, limiteSaques, []), ps))
  {
    ExecucaoConsistente(EstadoConta(0, limite, limiteSaques, []), ps);
  }

  /** Registering never alters earlier entries, nor the ceiling and count limit. */
  lemma {:induction false} HistoricoSoCresce(e: EstadoConta, ps: seq<(Transacao, string)>)
    ensures var r := AplicarTodas(e, ps);
      && |e.transacoes| <= |r.transacoes|
      && r.transacoes[..|e.transacoes|] == e.transacoes
      && r.limite == e.limite && r.limiteSaques == e.limiteSaques
    decreases |ps|
  {
    if ps != [] {
      var e' := Aplicar(e, ps[0].0, ps[0].1);
      HistoricoSoCresce(e', ps[1..]);
      var r := AplicarTodas(e', ps[1..]);
      assert e'.transacoes[..|e.transacoes|] == e.transacoes;
      assert r.transacoes[..|e.transacoes|] == r.transacoes[..|e'.transacoes|][..|e.transacoes|];
    }
  }

  /** Ceiling 500, at most 3 withdrawals, balance 0: deposit 500; withdraw 600
      is refused for the ceiling; withdraw 300, 1 and 1 succeed; a fourth
      withdrawal of 1 is refused for the count. */
  lemma CenarioLimiteEContagem(d: string)
    ensures var e0 := EstadoConta(0, 500, 3, []);
      var e1 := Aplicar(e0, Deposito(500), d);
      var e2 := Aplicar(e1, Saque(600), d);
      var e3 := Aplicar(e2, Saque(300), d);
      var e4 := Aplicar(e3, Saque(1), d);
      var e5 := Aplicar(e4, Saque(1), d);
      && e1.saldo == 500
      && VereditoSaque(600, e1) == LimiteExcedido && e2 == e1
      && e3.saldo == 200
      && e5.saldo == 198 && ContaSaques(e5.transacoes) == 3
      && VereditoSaque(1, e5) == SaquesExcedidos && Aplicar(e5, Saque(1), d) == e5
  {
    var r1, r3, r4 := Registro(Deposito(500), d), Registro(Saque(300), d), Registro(Saque(1), d);
    var e1 := Aplicar(EstadoConta(0, 500, 3, []), Deposito(500), d);
    assert e1 == EstadoConta(500, 500, 3, [r1]);
    ContaSaquesAnexa([], r1);
    var e3 := Aplicar(e1, Saque(300), d);
    assert e3 == EstadoConta(200, 500, 3, [r1, r3]);
    ContaSaquesAnexa([r1], r3);
    var e4 := Aplicar(e3, Saque(1), d);
    assert e4 == EstadoConta(199, 500, 3, [r1, r3, r4]);
    ContaSaquesAnexa([r1, r3], r4);
    var e5 := Aplicar(e4, Saque(1), d);
    assert e5 == EstadoConta(198, 500, 3, [r1, r3, r4, r4]);
    ContaSaquesAnexa([r1, r3, r4], r4);
  }

  /** A client (`Cliente` and `PessoaFisica` in one class). Only `contas`
      changes after creation. */
  class PessoaFisica {
    const nome: string
    const dataNascimento: string
    const cpf: string
    const endereco: string
    var contas: seq<ContaCorrente>

    constructor (nome: string, dataNascimento: string, cpf: string, endereco: string)
      ensures this.nome == nome && this.dataNascimento == dataNascimento
      ensures this.cpf == cpf && this.endereco == endereco
      ensures contas == []
    {
      this.nome := nome;
      this.dataNascimento := dataNascimento;
      this.cpf := cpf;
      this.endereco := endereco;
      contas := [];
    }

    method AdicionarConta(conta: ContaCorrente)
      modifies this
      ensures contas == old(contas) + [conta]
    {
      contas := contas + [conta];
    }

    /** `realizar_transacao`: hands the transaction to `registrar`. */
    method RealizarTransacao(conta: ContaCorrente, t: Transacao, agora: string)
      modifies conta, conta.historico
      ensures conta.Estado() == Aplicar(old(conta.Estado()), t, agora)
      ensures old(conta.Consistente()) ==> conta.Consistente()
    {
      Registrar(t, conta, agora);
    }

    /** `to_dict`: the owned accounts are written as their numbers. */
    function ToDict(): (r: ClienteDict)
      reads this
      ensures r.nome == nome && r.dataNascimento == dataNascimento
      ensures r.cpf == cpf && r.endereco == endereco
      ensures |r.contas| == |contas|
      ensures forall i :: 0 <= i < |contas| ==> r.contas[i] == contas[i].numero
    {
      ClienteDict(nome, dataNascimento, cpf, endereco, NumerosDasContas(contas))
    }
  }

  function NumerosDasContas(cs: seq<ContaCorrente>): (r: seq<string>)
    ensures |r| == |cs|
    ensures forall i :: 0 <= i < |cs| ==> r[i] == cs[i].numero
  {
    if cs == [] then [] else NumerosDasContas(cs[..|cs| - 1]) + [cs[|cs| - 1].numero]
  }

  lemma NumerosDasContasAnexa(cs: seq<ContaCorrente>, c: ContaCorrente)
    ensures NumerosDasContas(cs + [c]) == NumerosDasContas(cs) + [c.numero]
  {
    assert (cs + [c])[..|cs|] == cs;
  }

  /** A checking account (`Conta` and `ContaCorrente` in one class). */
  class ContaCorrente {
    var saldo: int
    const numero: string
    const agencia: string
    const cliente: PessoaFisica
    const historico: Historico
    const limite: int
    const limiteSaques: int

    constructor (numero: string, cliente: PessoaFisica, limite: int, limiteSaques: int, saldo: int)
      ensures this.numero == numero && this.cliente == cliente
      ensures this.limite == limite && this.limiteSaques == limiteSaques && this.saldo == saldo
      ensures agencia == AGENCIA
      ensures fresh(historico) && historico.transacoes == []
    {
      this.saldo := saldo;
      this.numero := numero;
      this.agencia := AGENCIA;
      this.cliente := cliente;
      this.limite := limite;
      this.limiteSaques := limiteSaques;
      this.historico := new Historico();
    }

    /** `Conta.nova_conta` called on `ContaCorrente`: it passes its three
        arguments positionally, so the opening balance lands in `limite`,
        the count limit takes its default and the balance starts at 0. */
    static method NovaConta(cliente: PessoaFisica, numero: string, saldo: int) returns (conta: ContaCorrente)
      ensures fresh(conta) && fresh(conta.historico)
      ensures conta.numero == numero && conta.cliente == cliente && conta.agencia == AGENCIA
      ensures conta.limite == saldo && conta.limiteSaques == LIMITE_SAQUES_PADRAO
      ensures conta.saldo == 0 && conta.historico.transacoes == []
    {
      conta := new ContaCorrente(numero, cliente, saldo, LIMITE_SAQUES_PADRAO, 0);
    }

    function Estado(): EstadoConta
      reads this, historico
    {
      EstadoConta(saldo, limite, limiteSaques, historico.transacoes)
    }

    ghost predicate Consistente()
      reads this, historico
    {
      EstadoConsistente(Estado())
    }

    /** `_realizar_operacao`: a positive amount is subtracted for "saque",
        added for "deposito", and accepted without effect for any other tag. */
    method RealizarOperacao(valor: int, tipoOperacao: string) returns (ok: bool)
      modifies this
      ensures ok <==> valor > 0
      ensures saldo == if !ok then old(saldo)
                       else if tipoOperacao == "saque" then old(saldo) - valor
                       else if tipoOperacao == "deposito" then old(saldo) + valor
                       else old(saldo)
    {
      if valor > 0 {
        if tipoOperacao == "saque" {
          saldo := saldo - valor;
        } else if tipoOperacao == "deposito" {
          saldo := saldo + valor;
        }
        ok := true;
      } else {
        ok := false;
      }
    }

    /** `Conta.sacar`: funds first, then positivity. */
    method ContaSacar(valor: int) returns (ok: bool)
      modifies this
      ensures ok <==> 0 < valor <= old(saldo)
      ensures saldo == if ok then old(saldo) - valor else old(saldo)
    {
      if valor > saldo {
        return false;
      }
      ok := RealizarOperacao(valor, "saque");
    }

    /** `ContaCorrente.sacar`: ceiling, then the number of "Saque" entries in
        the history, then `Conta.sacar`. */
    method Sacar(valor: int) returns (ok: bool)
      modifies this
      ensures ok <==> VereditoSaque(valor, old(Estado())) == Aceito
      ensures saldo == if ok then old(saldo) - valor else old(saldo)
      ensures ok ==> saldo >= 0
    {
      var numeroSaques := ContaSaques(historico.transacoes);
      var excedeuLimite := valor > limite;
      var excedeuSaques := numeroSaques >= limiteSaques;
      if excedeuLimite {
        return false;
      }
      if excedeuSaques {
        return false;
      }
      ok := ContaSacar(valor);
    }

    /** `Conta.depositar`. */
    method Depositar(valor: int) returns (ok: bool)
      modifies this
      ensures ok <==> valor > 0
      ensures saldo == if ok then old(saldo) + valor else old(saldo)
    {
      ok := RealizarOperacao(valor, "deposito");
    }

    /** `to_dict`: every field, the owner's CPF and the history as it stands. */
    function ToDict(): (r: ContaDict)
      reads this, historico
      ensures r.numero == numero && r.agencia == agencia && r.saldo == saldo
      ensures r.clienteCpf == cliente.cpf && r.limite == limite && r.limiteSaques == limiteSaques
      ensures r.historico == historico.transacoes
      ensures Consistente() ==> TiposValidos(r.historico) && r.saldo == SaldoDoExtrato(r.historico)
    {
      ContaDict(numero, agencia, saldo, cliente.cpf, limite, limiteSaques, historico.transacoes)
    }
  }

  /** `Saque.registrar` / `Deposito.registrar`: run the matching account
      operation and append the entry for `t` only when it returned True. */
  method Registrar(t: Transacao, conta: ContaCorrente, agora: string)
    modifies conta, conta.historico
    ensures conta.Estado() == Aplicar(old(conta.Estado()), t, agora)
    ensures conta.historico.transacoes ==
      if Aceita(old(conta.Estado()), t) then old(conta.historico.transacoes) + [Registro(t, agora)]
      else old(conta.historico.transacoes)
    ensures old(conta.Consistente()) ==> conta.Consistente()
  {
    var ok: bool;
    match t {
      case Saque(v) =>
        ok := conta.Sacar(v);
      case Deposito(v) =>
        ok := conta.Depositar(v);
    }
    if ok {
      conta.historico.AdicionarTransacao(t, agora);
    }
    if old(conta.Consistente()) {
      AplicarPreservaConsistencia(old(conta.Estado()), t, agora);
    }
  }

  /** The unit test `test_saque_dentro_do_limite`: ceiling 1000, five
      withdrawals, deposit 500 then withdraw 300. */
  method TesteSaqueDentroDoLimite() returns (ok: bool, saldo: int)
    ensures ok && saldo == 200
  {
    var cliente := new PessoaFisica("João", "01-01-1990", "12345678901", "Rua A, 123");
    var conta := new ContaCorrente("1234", cliente, 1000, 5, 0);
    var _ := conta.Depositar(500);
    ok := conta.Sacar(300);
    saldo := conta.saldo;
  }

  /** The unit test `test_saque_acima_do_limite`: deposit 500 then withdraw
      1200, above the ceiling of 1000. */
  method TesteSaqueAcimaDoLimite() returns (ok: bool, saldo: int)
    ensures !ok && saldo == 500
  {
    var cliente := new PessoaFisica("João", "01-01-1990", "12345678901", "Rua A, 123");
    var conta := new ContaCorrente("1234", cliente, 1000, 5, 0);
    var _ := conta.Depositar(500);
    ok := conta.Sacar(1200);
    saldo := conta.saldo;
  }
}
