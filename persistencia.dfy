/** The reconstruction half of `carregar_dados`: clients first, indexed by
    CPF; then accounts, each bound to its owner (or dropped when the owner is
    unknown), given its stored balance, its history replayed, and appended to
    its owner's `contas`. Proved against `Recarga.Reconstruir`. */
module Persistencia {
  import opened Transacoes
  import opened Formato
  import opened Contas
  import opened Recarga
  import opened Sistema

  /** `list(d.values())` for a dictionary whose keys, in insertion order,
      are `ordem`. */
  function Valores<V>(m: map<string, V>, ordem: seq<string>): (r: seq<V>)
    requires forall k :: k in ordem ==> k in m
    ensures |r| == |ordem|
    ensures forall i :: 0 <= i < |ordem| ==> r[i] == m[ordem[i]]
  {
    if ordem == [] then [] else Valores(m, ordem[..|ordem| - 1]) + [m[ordem[|ordem| - 1]]]
  }

  /** The identity fields of a loaded client are those of the stored record. */
  predicate MesmaIdentidade(c: PessoaFisica, d: ClienteDict)
  {
    c.nome == d.nome && c.dataNascimento == d.dataNascimento && c.cpf == d.cpf && c.endereco == d.endereco
  }

  /** Inserting under one more key. */
  lemma PassoChaves(ks: seq<string>, x: string)
    ensures OrdemChaves(ks + [x]) == var p := OrdemChaves(ks); if x in p then p else p + [x]
    ensures forall k :: k in ks + [x] ==>
      UltimoIndice(ks + [x], k) == if x == k then |ks| else UltimoIndice(ks, k)
  {
    assert (ks + [x])[..|ks|] == ks;
    forall k | k in ks + [x]
      ensures UltimoIndice(ks + [x], k) == if x == k then |ks| else UltimoIndice(ks, k)
    {
      UltimoIndiceAnexa(ks, x, k);
    }
  }

  /** The replay loop over one stored history: each entry tagged "Saque" or
      "Deposito" becomes that transaction again and is appended with a new
      timestamp; other entries are skipped. The balance is not touched. */
  method RecarregarHistorico(h: Historico, entradas: seq<Entrada>, agora: string)
    modifies h
    ensures h.transacoes == old(h.transacoes) + Replay(entradas, agora)
  {
    var m := 0;
    while m < |entradas|
      invariant 0 <= m <= |entradas|
      invariant h.transacoes == old(h.transacoes) + Replay(entradas[..m], agora)
    {
      var e := entradas[m];
      assert entradas[..m + 1][..m] == entradas[..m];
      if e.tipo == SAQUE {
        h.AdicionarTransacao(Saque(e.valor), agora);
      } else if e.tipo == DEPOSITO {
        h.AdicionarTransacao(Deposito(e.valor), agora);
      }
      m := m + 1;
    }
    assert entradas[..m] == entradas;
  }

  /** The clients dictionary after the first `i` stored records: one client
      per CPF seen, holding the last record with that CPF and no accounts. */
  ghost predicate ClientesIndexados(cs: seq<ClienteDict>, i: nat, idx: map<string, PessoaFisica>)
    requires i <= |cs|
    reads idx.Values
  {
    && (forall k :: k in idx <==> k in CpfsDe(cs)[..i])
    && (forall k :: k in idx ==>
          && idx[k].cpf == k && idx[k].contas == []
          && MesmaIdentidade(idx[k], cs[UltimoIndice(CpfsDe(cs)[..i], k)]))
  }

  /** Storing the client built from record `i` under its CPF. */
  lemma ClienteIndexado(cs: seq<ClienteDict>, i: nat, idx: map<string, PessoaFisica>, cliente: PessoaFisica)
    requires i < |cs|
    requires ClientesIndexados(cs, i, idx)
    requires cliente.cpf == cs[i].cpf && cliente.contas == [] && MesmaIdentidade(cliente, cs[i])
    ensures ClientesIndexados(cs, i + 1, idx[cs[i].cpf := cliente])
  {
    var ks, x := CpfsDe(cs), cs[i].cpf;
    assert ks[..i + 1] == ks[..i] + [x];
    var depois := idx[x := cliente];
    forall k ensures k in depois <==> k in ks[..i + 1] {
      assert k in ks[..i] + [x] <==> k in ks[..i] || k == x;
    }
    forall k | k in depois
      ensures depois[k].cpf == k && depois[k].contas == []
      ensures MesmaIdentidade(depois[k], cs[UltimoIndice(ks[..i + 1], k)])
    {
      UltimoIndiceAnexa(ks[..i], x, k);
    }
  }

  /** One pass of the first loop: the client built from record `i` is
      stored under its CPF, which joins the key order if it is new. */
  method IndexarCliente(cs: seq<ClienteDict>, i: nat, idx: map<string, PessoaFisica>, ordem: seq<string>)
    returns (idx': map<string, PessoaFisica>, ordem': seq<string>)
    requires i < |cs|
    requires ordem == OrdemChaves(CpfsDe(cs)[..i])
    requires ClientesIndexados(cs, i, idx)
    ensures ordem' == OrdemChaves(CpfsDe(cs)[..i + 1])
    ensures ClientesIndexados(cs, i + 1, idx')
    ensures forall k :: k in idx' ==> k in idx || fresh(idx'[k])
    ensures forall k :: k in idx ==> k in idx' && (idx'[k] == idx[k] || fresh(idx'[k]))
  {
    var d := cs[i];
    ghost var ks := CpfsDe(cs);
    assert ks[..i + 1] == ks[..i] + [d.cpf];
    PassoChaves(ks[..i], d.cpf);
    var cliente := new PessoaFisica(d.nome, d.dataNascimento, d.cpf, d.endereco);
    ClienteIndexado(cs, i, idx, cliente);
    ordem' := if cliente.cpf in idx then ordem else ordem + [cliente.cpf];
    idx' := idx[cliente.cpf := cliente];
  }

  /** The first loop: one new client per stored record, stored in
      `clientes_dict` under its CPF; a repeated CPF keeps its first position
      and takes the later record. */
  method IndexarClientes(cs: seq<ClienteDict>) returns (idx: map<string, PessoaFisica>, ordem: seq<string>)
    ensures ordem == OrdemChaves(CpfsDe(cs))
    ensures forall k :: k in idx <==> k in CpfsDe(cs)
    ensures forall k :: k in idx ==>
      && fresh(idx[k]) && idx[k].cpf == k && idx[k].contas == []
      && MesmaIdentidade(idx[k], cs[UltimoIndice(CpfsDe(cs), k)])
  {
    idx, ordem := map[], [];
    var i := 0;
    while i < |cs|
      invariant 0 <= i <= |cs|
      invariant ordem == OrdemChaves(CpfsDe(cs)[..i])
      invariant ClientesIndexados(cs, i, idx)
      invariant forall k :: k in idx ==> fresh(idx[k])
    {
      idx, ordem := IndexarCliente(cs, i, idx, ordem);
      i := i + 1;
    }
    assert CpfsDe(cs)[..i] == CpfsDe(cs);
  }

  /** One stored account rebuilt: the stored balance and limits, the owner
      given, and the stored history replayed onto the new empty history. */
  method CarregarConta(d: ContaDict, cliente: PessoaFisica, agora: string) returns (conta: ContaCorrente)
    requires cliente.cpf == d.clienteCpf
    ensures fresh(conta) && fresh(conta.historico) && conta.cliente == cliente
    ensures conta.ToDict() == ContaCarregada(d, agora)
  {
    conta := new ContaCorrente(d.numero, cliente, d.limite, d.limiteSaques, d.saldo);
    RecarregarHistorico(conta.historico, d.historico, agora);
  }

  /** An account flattened by `to_dict` and rebuilt by the load for an owner
      with the same CPF: every stored field is kept, the history keeps its
      kinds and amounts in order, and the balance is not re-applied. */
  method IdaEVolta(conta: ContaCorrente, dono: PessoaFisica, agora: string) returns (copia: ContaCorrente)
    requires conta.agencia == AGENCIA && TiposValidos(conta.historico.transacoes)
    requires dono.cpf == conta.cliente.cpf
    ensures fresh(copia) && fresh(copia.historico) && copia.cliente == dono
    ensures copia.numero == conta.numero && copia.agencia == conta.agencia && copia.saldo == conta.saldo
    ensures copia.limite == conta.limite && copia.limiteSaques == conta.limiteSaques
    ensures Resumo(copia.historico.transacoes) == Resumo(conta.historico.transacoes)
  {
    var d := conta.ToDict();
    copia := CarregarConta(d, dono, agora);
    ContaIdaEVolta(d, agora);
  }

  /** One more stored account seen by the second loop. */
  lemma ConhecidasAnexa(feitas: seq<ContaDict>, d: ContaDict, cpfs: set<string>)
    ensures Conhecidas(feitas + [d], cpfs) ==
      if d.clienteCpf in cpfs then Conhecidas(feitas, cpfs) + [d] else Conhecidas(feitas, cpfs)
  {
    assert (feitas + [d])[..|feitas|] == feitas;
  }

  /** The accounts among the first `j` stored ones whose owner is known. */
  ghost function ConhecidasAte(cs: seq<ContaDict>, j: nat, cpfs: set<string>): seq<ContaDict>
    requires j <= |cs|
  {
    if j == 0 then []
    else if cs[j - 1].clienteCpf in cpfs then ConhecidasAte(cs, j - 1, cpfs) + [cs[j - 1]]
    else ConhecidasAte(cs, j - 1, cpfs)
  }

  lemma {:induction false} ConhecidasAtePrefixo(cs: seq<ContaDict>, j: nat, cpfs: set<string>)
    requires j <= |cs|
    ensures ConhecidasAte(cs, j, cpfs) == Conhecidas(cs[..j], cpfs)
  {
    if j > 0 {
      ConhecidasAtePrefixo(cs, j - 1, cpfs);
      assert cs[..j] == cs[..j - 1] + [cs[j - 1]];
      ConhecidasAnexa(cs[..j - 1], cs[j - 1], cpfs);
    }
  }

  lemma ConhecidasAteFim(cs: seq<ContaDict>, cpfs: set<string>)
    ensures ConhecidasAte(cs, |cs|, cpfs) == Conhecidas(cs, cpfs)
  {
    ConhecidasAtePrefixo(cs, |cs|, cpfs);
    assert cs[..|cs|] == cs;
  }

  lemma NumerosDoClienteAnexa(cs: seq<ContaDict>, d: ContaDict, k: string)
    ensures NumerosDoCliente(cs + [d], k) ==
      if d.clienteCpf == k then NumerosDoCliente(cs, k) + [d.numero] else NumerosDoCliente(cs, k)
  {
    assert (cs + [d])[..|cs|] == cs;
  }

  /** Dropping the accounts of unknown owners does not change the account
      numbers of a known owner. */
  lemma {:induction false} NumerosDosConhecidos(cs: seq<ContaDict>, cpfs: set<string>, k: string)
    requires k in cpfs
    ensures NumerosDoCliente(Conhecidas(cs, cpfs), k) == NumerosDoCliente(cs, k)
  {
    if cs != [] {
      var n := |cs| - 1;
      assert cs == cs[..n] + [cs[n]];
      NumerosDosConhecidos(cs[..n], cpfs, k);
      ConhecidasAnexa(cs[..n], cs[n], cpfs);
      NumerosDoClienteAnexa(cs[..n], cs[n], k);
      if cs[n].clienteCpf in cpfs {
        NumerosDoClienteAnexa(Conhecidas(cs[..n], cpfs), cs[n], k);
      }
    }
  }

  /** One more account with a known owner stored in the accounts dictionary. */
  lemma PassoConta(vistas: seq<ContaDict>, d: ContaDict, agora: string)
    ensures NumerosDe(vistas + [d]) == NumerosDe(vistas) + [d.numero]
    ensures OrdemChaves(NumerosDe(vistas + [d])) ==
      var p := OrdemChaves(NumerosDe(vistas)); if d.numero in p then p else p + [d.numero]
    ensures forall n :: n in NumerosDe(vistas + [d]) ==>
      ContaDaChave(vistas + [d], n, agora) ==
        if n == d.numero then ContaCarregada(d, agora) else ContaDaChave(vistas, n, agora)
  {
    var ks := NumerosDe(vistas);
    assert NumerosDe(vistas + [d]) == ks + [d.numero];
    PassoChaves(ks, d.numero);
    forall n | n in ks + [d.numero] && n != d.numero
      ensures ContaDaChave(vistas + [d], n, agora) == ContaDaChave(vistas, n, agora)
    {
      assert (vistas + [d])[UltimoIndice(ks, n)] == vistas[UltimoIndice(ks, n)];
    }
  }

  /** The accounts dictionary after inserting the accounts loaded from
      `vistas`, in order: its keys in insertion order are `ordem`, and under
      each number sits the account loaded from the last record with it. */
  ghost predicate ContasIndexadas(vistas: seq<ContaDict>, contasDict: map<string, ContaCorrente>,
                                  ordem: seq<string>, agora: string)
    reads contasDict.Values, set n | n in contasDict :: contasDict[n].historico
  {
    && ordem == OrdemChaves(NumerosDe(vistas))
    && (forall n :: n in contasDict <==> n in NumerosDe(vistas))
    && (forall n :: n in contasDict ==> contasDict[n].ToDict() == ContaDaChave(vistas, n, agora))
  }

  /** Every indexed account points to the client stored under its owner's CPF. */
  predicate Donos(idx: map<string, PessoaFisica>, contasDict: map<string, ContaCorrente>)
  {
    forall n :: n in contasDict ==>
      contasDict[n].cliente.cpf in idx && contasDict[n].cliente == idx[contasDict[n].cliente.cpf]
  }

  lemma DonosAnexa(idx: map<string, PessoaFisica>, contasDict: map<string, ContaCorrente>, n: string,
                   conta: ContaCorrente)
    requires Donos(idx, contasDict)
    requires conta.cliente.cpf in idx && conta.cliente == idx[conta.cliente.cpf]
    ensures Donos(idx, contasDict[n := conta])
  {
  }

  /** Every indexed account is listed by its owner. */
  ghost predicate Listadas(contasDict: map<string, ContaCorrente>)
    reads set n | n in contasDict :: contasDict[n].cliente
  {
    forall n :: n in contasDict ==> contasDict[n] in contasDict[n].cliente.contas
  }

  /** Each client lists, in order, the numbers of its accounts among
      `vistas`. */
  ghost predicate ContasPorCliente(idx: map<string, PessoaFisica>, vistas: seq<ContaDict>)
    reads idx.Values
  {
    forall k :: k in idx ==> NumerosDasContas(idx[k].contas) == NumerosDoCliente(vistas, k)
  }

  /** What the second loop has built once the accounts with a known owner
      that it has gone through are `vistas`. */
  ghost predicate Associacao(idx: map<string, PessoaFisica>, vistas: seq<ContaDict>,
                             contasDict: map<string, ContaCorrente>, ordem: seq<string>, agora: string)
    reads idx.Values, contasDict.Values, set n | n in contasDict :: contasDict[n].historico
    reads set n | n in contasDict :: contasDict[n].cliente
  {
    && ContasIndexadas(vistas, contasDict, ordem, agora)
    && Donos(idx, contasDict)
    && Listadas(contasDict)
    && ContasPorCliente(idx, vistas)
  }

  /** Storing one more loaded account keeps the accounts dictionary in step
      with the stored accounts seen. */
  lemma IndexadasAnexa(vistas: seq<ContaDict>, d: ContaDict, contasDict: map<string, ContaCorrente>,
                       ordem: seq<string>, conta: ContaCorrente, agora: string)
    requires ContasIndexadas(vistas, contasDict, ordem, agora)
    requires conta.ToDict() == ContaCarregada(d, agora)
    ensures ContasIndexadas(vistas + [d], contasDict[d.numero := conta],
                            if d.numero in contasDict then ordem else ordem + [d.numero], agora)
  {
    PassoConta(vistas, d, agora);
    var depois := contasDict[d.numero := conta];
    forall n | n in depois ensures depois[n].ToDict() == ContaDaChave(vistas + [d], n, agora) {
      IndexadaAnexa(vistas, d, contasDict, conta, agora, n);
    }
  }

  /** The entry under one number after storing one more loaded account. */
  lemma IndexadaAnexa(vistas: seq<ContaDict>, d: ContaDict, contasDict: map<string, ContaCorrente>,
                      conta: ContaCorrente, agora: string, n: string)
    requires n in contasDict[d.numero := conta]
    requires forall m :: m in contasDict <==> m in NumerosDe(vistas)
    requires forall m :: m in contasDict ==> contasDict[m].ToDict() == ContaDaChave(vistas, m, agora)
    requires conta.ToDict() == ContaCarregada(d, agora)
    requires forall m :: m in NumerosDe(vistas + [d]) ==>
      ContaDaChave(vistas + [d], m, agora) ==
        if m == d.numero then ContaCarregada(d, agora) else ContaDaChave(vistas, m, agora)
    ensures n in NumerosDe(vistas + [d])
    ensures contasDict[d.numero := conta][n].ToDict() == ContaDaChave(vistas + [d], n, agora)
  {
    assert NumerosDe(vistas + [d]) == NumerosDe(vistas) + [d.numero];
    if n != d.numero {
      assert n in contasDict;
    }
  }

  /** Loading one account and storing it in the accounts dictionary. */
  method IndexarConta(d: ContaDict, cliente: PessoaFisica, contasDict: map<string, ContaCorrente>,
                      ordem: seq<string>, ghost vistas: seq<ContaDict>, agora: string)
    returns (conta: ContaCorrente, contasDict': map<string, ContaCorrente>, ordem': seq<string>)
    requires cliente.cpf == d.clienteCpf
    requires ContasIndexadas(vistas, contasDict, ordem, agora)
    ensures fresh(conta) && conta.cliente == cliente && conta.numero == d.numero
    ensures contasDict' == contasDict[d.numero := conta]
    ensures ContasIndexadas(vistas + [d], contasDict', ordem', agora)
  {
    conta := CarregarConta(d, cliente, agora);
    forall n | n in contasDict ensures contasDict[n].ToDict() == old(contasDict[n].ToDict()) {
    }
    assert ContasIndexadas(vistas, contasDict, ordem, agora);
    IndexadasAnexa(vistas, d, contasDict, ordem, conta, agora);
    ordem' := if conta.numero in contasDict then ordem else ordem + [conta.numero];
    contasDict' := contasDict[conta.numero := conta];
  }

  /** `cliente.adicionar_conta(conta)` in the second loop: the owner now
      lists the new account as well. */
  method Vincular(cliente: PessoaFisica, conta: ContaCorrente, d: ContaDict, idx: map<string, PessoaFisica>,
                  contasDict: map<string, ContaCorrente>, ghost vistas: seq<ContaDict>,
                  ghost ordem: seq<string>, ghost agora: string)
    requires d.clienteCpf in idx && cliente == idx[d.clienteCpf]
    requires forall k :: k in idx ==> idx[k].cpf == k
    requires conta.cliente == cliente && conta.numero == d.numero
    requires Listadas(contasDict)
    requires ContasPorCliente(idx, vistas)
    requires ContasIndexadas(vistas + [d], contasDict[d.numero := conta], ordem, agora)
    modifies cliente
    ensures cliente.contas == old(cliente.contas) + [conta]
    ensures Listadas(contasDict[d.numero := conta])
    ensures ContasPorCliente(idx, vistas + [d])
    ensures ContasIndexadas(vistas + [d], contasDict[d.numero := conta], ordem, agora)
  {
    NumerosDasContasAnexa(cliente.contas, conta);
    cliente.AdicionarConta(conta);
    var depois := contasDict[d.numero := conta];
    forall n | n in depois ensures depois[n].ToDict() == old(depois[n].ToDict()) {
    }
    forall n | n in depois ensures depois[n] in depois[n].cliente.contas {
      if n != d.numero {
        assert contasDict[n] in old(contasDict[n].cliente.contas);
      }
    }
    forall k | k in idx
      ensures NumerosDasContas(idx[k].contas) == NumerosDoCliente(vistas + [d], k)
    {
      NumerosDoClienteAnexa(vistas, d, k);
      assert NumerosDasContas(old(idx[k].contas)) == NumerosDoCliente(vistas, k);
      if k != d.clienteCpf {
        assert idx[k] != cliente;
      }
    }
  }

  /** One pass of the second loop for an account whose owner is known. */
  method AssociarConta(d: ContaDict, idx: map<string, PessoaFisica>, contasDict: map<string, ContaCorrente>,
                       ordem: seq<string>, ghost vistas: seq<ContaDict>, agora: string)
    returns (contasDict': map<string, ContaCorrente>, ordem': seq<string>)
    requires forall k :: k in idx ==> idx[k].cpf == k
    requires d.clienteCpf in idx
    requires Associacao(idx, vistas, contasDict, ordem, agora)
    modifies idx[d.clienteCpf]
    ensures Associacao(idx, vistas + [d], contasDict', ordem', agora)
  {
    var cliente := idx[d.clienteCpf];
    var conta;
    conta, contasDict', ordem' := IndexarConta(d, cliente, contasDict, ordem, vistas, agora);
    DonosAnexa(idx, contasDict, d.numero, conta);
    Vincular(cliente, conta, d, idx, contasDict, vistas, ordem', agora);
  }

  /** Before the second loop, no account is indexed or listed. */
  lemma AssociacaoInicial(idx: map<string, PessoaFisica>, agora: string)
    requires forall k :: k in idx ==> idx[k].contas == []
    ensures Associacao(idx, [], map[], [], agora)
  {
  }

  /** One pass of the second loop: the account is associated when its owner
      is known and skipped otherwise. */
  method PassoDaCarga(cs: seq<ContaDict>, j: nat, idx: map<string, PessoaFisica>,
                      contasDict: map<string, ContaCorrente>, ordem: seq<string>,
                      ghost vistas: seq<ContaDict>, agora: string)
    returns (contasDict': map<string, ContaCorrente>, ordem': seq<string>, ghost vistas': seq<ContaDict>)
    requires j < |cs|
    requires forall k :: k in idx ==> idx[k].cpf == k
    requires vistas == ConhecidasAte(cs, j, idx.Keys)
    requires Associacao(idx, vistas, contasDict, ordem, agora)
    modifies idx.Values
    ensures vistas' == ConhecidasAte(cs, j + 1, idx.Keys)
    ensures Associacao(idx, vistas', contasDict', ordem', agora)
  {
    var d := cs[j];
    if d.clienteCpf in idx {
      contasDict', ordem' := AssociarConta(d, idx, contasDict, ordem, vistas, agora);
      vistas' := vistas + [d];
    } else {
      contasDict', ordem', vistas' := contasDict, ordem, vistas;
    }
  }

  /** The second loop: each stored account whose owner is in `idx` becomes a
      new account with the stored balance and limits, gets its history
      replayed, is stored in `contas_dict` under its number and is appended
      to its owner's `contas`. */
  method AssociarContas(cs: seq<ContaDict>, idx: map<string, PessoaFisica>, agora: string)
    returns (contasDict: map<string, ContaCorrente>, ordem: seq<string>)
    requires forall k :: k in idx ==> idx[k].cpf == k && idx[k].contas == []
    modifies idx.Values
    ensures Associacao(idx, Conhecidas(cs, idx.Keys), contasDict, ordem, agora)
  {
    contasDict, ordem := map[], [];
    ghost var vistas: seq<ContaDict> := [];
    AssociacaoInicial(idx, agora);
    var j := 0;
    while j < |cs|
      invariant 0 <= j <= |cs|
      invariant vistas == ConhecidasAte(cs, j, idx.Keys)
      invariant Associacao(idx, vistas, contasDict, ordem, agora)
    {
      contasDict, ordem, vistas := PassoDaCarga(cs, j, idx, contasDict, ordem, vistas, agora);
      j := j + 1;
    }
    ConhecidasAteFim(cs, idx.Keys);
  }

  /** The clients list built from the clients dictionary flattens to the
      loaded clients of `Reconstruir`. */
  lemma ClientesMontados(dados: Arquivo, idx: map<string, PessoaFisica>, ordem: seq<string>,
                         clientes: seq<PessoaFisica>)
    requires ordem == OrdemChaves(CpfsDe(dados.clientes))
    requires forall k :: k in idx <==> k in CpfsDe(dados.clientes)
    requires forall k :: k in idx ==>
      idx[k].cpf == k && MesmaIdentidade(idx[k], dados.clientes[UltimoIndice(CpfsDe(dados.clientes), k)])
    requires ContasPorCliente(idx, Conhecidas(dados.contas, idx.Keys))
    requires clientes == Valores(idx, ordem)
    ensures ClientesParaDict(clientes) == ClientesCarregados(dados, ordem)
  {
    forall i | 0 <= i < |clientes| ensures clientes[i].ToDict() == ClienteDaChave(dados, ordem[i]) {
      var k := ordem[i];
      assert k in idx;
      NumerosDosConhecidos(dados.contas, idx.Keys, k);
    }
  }

  /** The accounts list built from the accounts dictionary flattens to the
      loaded accounts of `Reconstruir`. */
  lemma ContasMontadas(vistas: seq<ContaDict>, contasDict: map<string, ContaCorrente>, ordem: seq<string>,
                       contas: seq<ContaCorrente>, agora: string)
    requires ContasIndexadas(vistas, contasDict, ordem, agora)
    requires contas == Valores(contasDict, ordem)
    ensures ContasParaDict(contas) == ContasCarregadas(vistas, ordem, agora)
  {
  }

  /** Each account of the accounts list is listed by its owner, which is in
      the clients list. */
  lemma ContasReferenciadas(idx: map<string, PessoaFisica>, ordemCpf: seq<string>, clientes: seq<PessoaFisica>,
                            contasDict: map<string, ContaCorrente>, ordemNumero: seq<string>,
                            contas: seq<ContaCorrente>)
    requires forall k :: k in idx ==> k in ordemCpf
    requires forall k :: k in ordemCpf ==> k in idx
    requires forall n :: n in ordemNumero ==> n in contasDict
    requires Donos(idx, contasDict) && Listadas(contasDict)
    requires clientes == Valores(idx, ordemCpf)
    requires contas == Valores(contasDict, ordemNumero)
    ensures forall i :: 0 <= i < |contas| ==> contas[i].cliente in clientes && contas[i] in contas[i].cliente.contas
  {
    forall i | 0 <= i < |contas|
      ensures contas[i].cliente in clientes && contas[i] in contas[i].cliente.contas
    {
      var k := contas[i].cliente.cpf;
      assert ordemNumero[i] in contasDict;
      assert k in ordemCpf;
      var p :| 0 <= p < |ordemCpf| && ordemCpf[p] == k;
      assert clientes[p] == contas[i].cliente;
    }
  }

  /** The clients list built from the clients dictionary has no repeated
      CPF: each client sits under its own CPF, and keys are not repeated. */
  lemma CpfsDosValores(idx: map<string, PessoaFisica>, ordem: seq<string>, clientes: seq<PessoaFisica>)
    requires forall k :: k in ordem ==> k in idx
    requires forall k :: k in idx ==> idx[k].cpf == k
    requires Distintos(ordem)
    requires clientes == Valores(idx, ordem)
    ensures forall i, j :: 0 <= i < j < |clientes| ==> clientes[i].cpf != clientes[j].cpf
  {
    forall i, j | 0 <= i < j < |clientes| ensures clientes[i].cpf != clientes[j].cpf {
      assert ordem[i] in ordem && ordem[j] in ordem;
    }
  }

  /** `carregar_dados` without the file access: the document comes from
      `fonte`, falling back to the empty document when the file is missing
      or not valid JSON; the returned ledger flattens to
      `Reconstruir(document, agora)`, its clients have distinct CPFs, and
      every account is listed by the client it points back to. */
  method CarregarDados(fonte: Fonte, agora: string) returns (banco: Banco)
    ensures fresh(banco)
    ensures banco.Serializar() == Reconstruir(ArquivoDe(fonte), agora)
    ensures banco.ReferenciasConsistentes()
    ensures banco.CpfsDistintos()
  {
    var dados: Arquivo;
    match fonte {
      case Lido(a) => dados := a;
      case Ausente => dados := Arquivo([], [], 1);
      case Corrompido => dados := Arquivo([], [], 1);
    }
    var clientesDict, ordemCpf := IndexarClientes(dados.clientes);
    assert clientesDict.Keys == CpfsConhecidos(dados);
    var contasDict, ordemNumero := AssociarContas(dados.contas, clientesDict, agora);
    var clientes := Valores(clientesDict, ordemCpf);
    var contas := Valores(contasDict, ordemNumero);
    banco := new Banco(clientes, contas, dados.proximoNumeroConta);
    ClientesMontados(dados, clientesDict, ordemCpf, clientes);
    ContasMontadas(Conhecidas(dados.contas, clientesDict.Keys), contasDict, ordemNumero, contas, agora);
    ContasReferenciadas(clientesDict, ordemCpf, clientes, contasDict, ordemNumero, contas);
    CpfsDosValores(clientesDict, ordemCpf, clientes);
  }
}
