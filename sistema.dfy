/** The live ledger (`dados` with its `clientes` and `contas` lists and
    `proximo_numero_conta`), the non-interactive halves of `criar_cliente` and
    `criar_conta`, and the flattening that `salvar_dados` hands to the JSON
    encoder. */
module Sistema {
  import opened Transacoes
  import opened Formato
  import opened Contas
  import opened Clientes

  /** Decimal text of a natural number: digits only, with no leading zero
      beyond a lone "0". */
  function Digitos(n: nat): (r: string)
    ensures |r| > 0 && forall i :: 0 <= i < |r| ==> EhDigito(r[i])
    ensures (n < 10) == (|r| == 1)
    decreases n
  {
    var d := ['0' + (n % 10) as char];
    if n < 10 then d else Digitos(n / 10) + d
  }

  /** Two naturals with the same decimal text are equal. */
  lemma {:induction false} DigitosInjetivo(a: nat, b: nat)
    requires Digitos(a) == Digitos(b)
    ensures a == b
    decreases a
  {
    var ra, rb := Digitos(a), Digitos(b);
    assert ra[|ra| - 1] == rb[|rb| - 1];
    assert a % 10 == b % 10;
    if a >= 10 {
      assert b >= 10;
      assert ra[..|ra| - 1] == Digitos(a / 10);
      assert rb[..|rb| - 1] == Digitos(b / 10);
      DigitosInjetivo(a / 10, b / 10);
    }
  }

  /** `str(n)` for an integer: its decimal digits, after a "-" when negative. */
  function NumeroParaTexto(n: int): (r: string)
    ensures n >= 0 ==> |r| > 0 && forall i :: 0 <= i < |r| ==> EhDigito(r[i])
    ensures n < 0 ==> |r| > 1 && r[0] == '-' && forall i :: 1 <= i < |r| ==> EhDigito(r[i])
  {
    if n < 0 then "-" + Digitos(-n) else Digitos(n)
  }

  /** Different account numbers give different texts, so the sequential
      numbering of `criar_conta` yields distinct `numero` strings. */
  lemma NumeroParaTextoInjetivo(a: int, b: int)
    requires NumeroParaTexto(a) == NumeroParaTexto(b)
    ensures a == b
  {
    var r := NumeroParaTexto(a);
    if a < 0 && b < 0 {
      assert Digitos(-a) == r[1..] == Digitos(-b);
      DigitosInjetivo(-a, -b);
    } else if a >= 0 && b >= 0 {
      DigitosInjetivo(a, b);
    }
  }

  /** The flattened clients, in list order. */
  function ClientesParaDict(cs: seq<PessoaFisica>): (r: seq<ClienteDict>)
    reads cs
    ensures |r| == |cs|
    ensures forall i :: 0 <= i < |cs| ==> r[i] == cs[i].ToDict()
  {
    if cs == [] then [] else ClientesParaDict(cs[..|cs| - 1]) + [cs[|cs| - 1].ToDict()]
  }

  /** The flattened accounts, in list order. */
  function ContasParaDict(cs: seq<ContaCorrente>): (r: seq<ContaDict>)
    reads cs, set c | c in cs :: c.historico
    ensures |r| == |cs|
    ensures forall i :: 0 <= i < |cs| ==> r[i] == cs[i].ToDict()
  {
    if cs == [] then [] else ContasParaDict(cs[..|cs| - 1]) + [cs[|cs| - 1].ToDict()]
  }

  class Banco {
    var clientes: seq<PessoaFisica>
    var contas: seq<ContaCorrente>
    var proximoNumeroConta: int

    constructor (clientes: seq<PessoaFisica>, contas: seq<ContaCorrente>, proximoNumeroConta: int)
      ensures this.clientes == clientes && this.contas == contas
      ensures this.proximoNumeroConta == proximoNumeroConta
    {
      this.clientes := clientes;
      this.contas := contas;
      this.proximoNumeroConta := proximoNumeroConta;
    }

    /** No two registered clients share a CPF. */
    predicate CpfsDistintos()
      reads this
    {
      forall i, j :: 0 <= i < j < |clientes| ==> clientes[i].cpf != clientes[j].cpf
    }

    /** Every account points back to a registered client that lists it. */
    predicate ReferenciasConsistentes()
      reads this, clientes
    {
      forall i :: 0 <= i < |contas| ==>
        contas[i].cliente in clientes && contas[i] in contas[i].cliente.contas
    }

    function Historicos(): set<Historico>
      reads this
    {
      set c | c in contas :: c.historico
    }

    /** The document `salvar_dados` encodes: every object through `to_dict`. */
    function Serializar(): (r: Arquivo)
      reads this, clientes, contas, Historicos()
      ensures |r.clientes| == |clientes| && |r.contas| == |contas|
      ensures r.proximoNumeroConta == proximoNumeroConta
      ensures forall i :: 0 <= i < |clientes| ==> r.clientes[i] == clientes[i].ToDict()
      ensures forall i :: 0 <= i < |contas| ==> r.contas[i] == contas[i].ToDict()
      ensures CpfsDistintos() ==>
        forall i, j :: 0 <= i < j < |r.clientes| ==> r.clientes[i].cpf != r.clientes[j].cpf
      ensures ReferenciasConsistentes() ==>
        forall i :: 0 <= i < |r.contas| ==> exists j :: 0 <= j < |r.clientes| && r.clientes[j].cpf == r.contas[i].clienteCpf
    {
      Arquivo(ClientesParaDict(clientes), ContasParaDict(contas), proximoNumeroConta)
    }

    /** `criar_cliente` once its inputs are read: the CPF must be 11 digits
        and not yet registered; the new client goes at the end of the list. */
    method CriarCliente(cpf: string, nome: string, dataNascimento: string, endereco: string)
      returns (ok: bool)
      modifies this
      ensures ok <==> CpfValido(cpf) && FiltrarCliente(cpf, old(clientes)).None?
      ensures !ok ==> clientes == old(clientes)
      ensures ok ==> |clientes| == |old(clientes)| + 1 && clientes[..|old(clientes)|] == old(clientes)
      ensures ok ==> var novo := clientes[|clientes| - 1];
        && fresh(novo) && novo.cpf == cpf && novo.nome == nome
        && novo.dataNascimento == dataNascimento && novo.endereco == endereco && novo.contas == []
      ensures contas == old(contas) && proximoNumeroConta == old(proximoNumeroConta)
      ensures old(CpfsDistintos()) ==> CpfsDistintos()
    {
      if !CpfValido(cpf) {
        return false;
      }
      var existente := FiltrarCliente(cpf, clientes);
      if existente.Some? {
        return false;
      }
      var cliente := new PessoaFisica(nome, dataNascimento, cpf, endereco);
      clientes := clientes + [cliente];
      ok := true;
    }

    /** `criar_conta` once the client is found and the opening balance read,
        as written: `nova_conta` stores the opening balance as the
        withdrawal ceiling and starts the balance at 0; a positive opening
        balance is then registered as a deposit. */
    method CriarConta(cliente: PessoaFisica, numeroConta: int, saldoInicial: int, agora: string)
      returns (conta: ContaCorrente)
      modifies this, cliente
      ensures fresh(conta) && fresh(conta.historico)
      ensures conta.numero == NumeroParaTexto(numeroConta) && conta.cliente == cliente
      ensures conta.agencia == AGENCIA
      ensures conta.limite == saldoInicial && conta.limiteSaques == LIMITE_SAQUES_PADRAO
      ensures conta.saldo == if saldoInicial > 0 then saldoInicial else 0
      ensures conta.historico.transacoes ==
        if saldoInicial > 0 then [Registro(Deposito(saldoInicial), agora)] else []
      ensures conta.Consistente()
      ensures contas == old(contas) + [conta] && cliente.contas == old(cliente.contas) + [conta]
      ensures clientes == old(clientes) && proximoNumeroConta == old(proximoNumeroConta)
    {
      conta := ContaCorrente.NovaConta(cliente, NumeroParaTexto(numeroConta), saldoInicial);
      if saldoInicial > 0 {
        Registrar(Deposito(saldoInicial), conta, agora);
      }
      contas := contas + [conta];
      cliente.AdicionarConta(conta);
    }

    /** Account creation as evidently intended: the default ceiling and count
        limit, and the opening balance entering once, through the recorded
        deposit. */
    method CriarContaCorrigida(cliente: PessoaFisica, numeroConta: int, saldoInicial: int, agora: string)
      returns (conta: ContaCorrente)
      modifies this, cliente
      ensures fresh(conta) && fresh(conta.historico)
      ensures conta.numero == NumeroParaTexto(numeroConta) && conta.cliente == cliente
      ensures conta.agencia == AGENCIA
      ensures conta.limite == LIMITE_PADRAO && conta.limiteSaques == LIMITE_SAQUES_PADRAO
      ensures conta.saldo == if saldoInicial > 0 then saldoInicial else 0
      ensures conta.historico.transacoes ==
        if saldoInicial > 0 then [Registro(Deposito(saldoInicial), agora)] else []
      ensures conta.Consistente()
      ensures contas == old(contas) + [conta] && cliente.contas == old(cliente.contas) + [conta]
      ensures clientes == old(clientes) && proximoNumeroConta == old(proximoNumeroConta)
    {
      conta := new ContaCorrente(NumeroParaTexto(numeroConta), cliente, LIMITE_PADRAO, LIMITE_SAQUES_PADRAO, 0);
      if saldoInicial > 0 {
        Registrar(Deposito(saldoInicial), conta, agora);
      }
      contas := contas + [conta];
      cliente.AdicionarConta(conta);
    }
  }

  /** With the account as written, an opening balance of 100 followed by a
      deposit of 100 leaves a withdrawal of 150 refused for the ceiling,
      which the default ceiling of 500 would have allowed; and an account
      opened without an opening balance has ceiling 0, so every withdrawal
      from it is refused. */
  lemma AberturaViraLimite(d: string, v: int, h: seq<Entrada>, saldo: int)
    requires v > 0
    ensures var aberta := Aplicar(EstadoConta(0, 100, LIMITE_SAQUES_PADRAO, []), Deposito(100), d);
      var corrigida := Aplicar(EstadoConta(0, LIMITE_PADRAO, LIMITE_SAQUES_PADRAO, []), Deposito(100), d);
      && VereditoSaque(150, Aplicar(aberta, Deposito(100), d)) == LimiteExcedido
      && VereditoSaque(150, Aplicar(corrigida, Deposito(100), d)) == Aceito
    ensures VereditoSaque(v, EstadoConta(saldo, 0, LIMITE_SAQUES_PADRAO, h)) == LimiteExcedido
  {
    var corrigida := Aplicar(EstadoConta(0, LIMITE_PADRAO, LIMITE_SAQUES_PADRAO, []), Deposito(100), d);
    ContaSaquesAnexa([], Registro(Deposito(100), d));
    ContaSaquesAnexa(corrigida.transacoes, Registro(Deposito(100), d));
  }
}
