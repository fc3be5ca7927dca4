/** What loading a persisted document produces, as a value: `Reconstruir(a,
    agora)` is the document that the rebuilt object graph flattens back to.
    The load indexes clients in a dictionary keyed by CPF and accounts in one
    keyed by number; a Python dictionary keeps the position of a key's first
    insertion and the value of its last, which `OrdemChaves` and `Ultimo`
    describe. */
module Recarga {
  import opened Transacoes
  import opened Formato
  import opened Contas

  predicate Distintos(ks: seq<string>)
  {
    forall i, j :: 0 <= i < j < |ks| ==> ks[i] != ks[j]
  }

  /** The CPF of every stored client, in order. */
  function CpfsDe(cs: seq<ClienteDict>): (r: seq<string>)
    ensures |r| == |cs|
    ensures forall i :: 0 <= i < |cs| ==> r[i] == cs[i].cpf
  {
    if cs == [] then [] else CpfsDe(cs[..|cs| - 1]) + [cs[|cs| - 1].cpf]
  }

  /** The number of every stored account, in order. */
  function NumerosDe(cs: seq<ContaDict>): (r: seq<string>)
    ensures |r| == |cs|
    ensures forall i :: 0 <= i < |cs| ==> r[i] == cs[i].numero
  {
    if cs == [] then [] else NumerosDe(cs[..|cs| - 1]) + [cs[|cs| - 1].numero]
  }

  /** The keys of a dictionary after inserting `ks` in order: each key at the
      position of its first insertion. */
  function OrdemChaves(ks: seq<string>): (r: seq<string>)
    ensures forall k :: k in r <==> k in ks
    ensures Distintos(r)
  {
    if ks == [] then []
    else
      var p := OrdemChaves(ks[..|ks| - 1]);
      var k := ks[|ks| - 1];
      if k in p then p else p + [k]
  }

  /** Where the value a dictionary holds for `k` was inserted, after
      inserting under the keys `ks` in order: the last position of `k`. */
  function UltimoIndice(ks: seq<string>, k: string): (i: nat)
    requires k in ks
    ensures i < |ks| && ks[i] == k
    ensures forall j :: i < j < |ks| ==> ks[j] != k
  {
    var n := |ks| - 1;
    if ks[n] == k then n else UltimoIndice(ks[..n], k)
  }

  /** The stored accounts whose owner is among `cpfs`, in order. */
  function Conhecidas(cs: seq<ContaDict>, cpfs: set<string>): (r: seq<ContaDict>)
    ensures forall c :: c in r <==> c in cs && c.clienteCpf in cpfs
  {
    if cs == [] then []
    else
      var c := cs[|cs| - 1];
      assert cs == cs[..|cs| - 1] + [c];
      if c.clienteCpf in cpfs then Conhecidas(cs[..|cs| - 1], cpfs) + [c] else Conhecidas(cs[..|cs| - 1], cpfs)
  }

  /** Numbers of the stored accounts owned by `cpf`, in order: the accounts
      the load appends to that client's `contas`. */
  function NumerosDoCliente(cs: seq<ContaDict>, cpf: string): seq<string>
  {
    if cs == [] then []
    else
      var c := cs[|cs| - 1];
      if c.clienteCpf == cpf then NumerosDoCliente(cs[..|cs| - 1], cpf) + [c.numero]
      else NumerosDoCliente(cs[..|cs| - 1], cpf)
  }

  /** The history replay: entries tagged "Saque" or "Deposito" are
      registered again, with their amounts and a fresh timestamp; others are
      skipped. */
  function Replay(h: seq<Entrada>, agora: string): (r: seq<Entrada>)
    ensures |r| <= |h|
    ensures TiposValidos(r)
    ensures forall i :: 0 <= i < |r| ==> r[i].data == agora
  {
    if h == [] then []
    else
      var e := h[|h| - 1];
      Replay(h[..|h| - 1], agora)
      + (if e.tipo == SAQUE then [Registro(Saque(e.valor), agora)]
         else if e.tipo == DEPOSITO then [Registro(Deposito(e.valor), agora)]
         else [])
  }

  /** One more stored entry: its replay is added at the end. */
  lemma ReplayAnexa(h: seq<Entrada>, e: Entrada, agora: string)
    ensures Replay(h + [e], agora) == Replay(h, agora) + Replay([e], agora)
  {
    assert (h + [e])[..|h|] == h;
    assert [e][..0] == [];
  }

  /** The replay treats each entry on its own: replaying two pieces of a
      history one after the other gives the replay of the whole. */
  lemma {:induction false} ReplayConcatena(h1: seq<Entrada>, h2: seq<Entrada>, agora: string)
    ensures Replay(h1 + h2, agora) == Replay(h1, agora) + Replay(h2, agora)
    decreases |h2|
  {
    if h2 == [] {
      assert h1 + h2 == h1;
    } else {
      var n := |h2| - 1;
      var e := h2[n];
      calc {
        Replay(h1 + h2, agora);
        { assert h1 + h2 == (h1 + h2[..n]) + [e]; }
        Replay((h1 + h2[..n]) + [e], agora);
        { ReplayAnexa(h1 + h2[..n], e, agora); }
        Replay(h1 + h2[..n], agora) + Replay([e], agora);
        { ReplayConcatena(h1, h2[..n], agora); }
        Replay(h1, agora) + Replay(h2[..n], agora) + Replay([e], agora);
        { ReplayAnexa(h2[..n], e, agora); assert h2[..n] + [e] == h2; }
        Replay(h1, agora) + Replay(h2, agora);
      }
    }
  }

  /** A stored entry tagged neither "Saque" nor "Deposito", wherever it sits
      in the history, adds nothing to the replayed history. */
  lemma ReplayIgnoraOutros(h1: seq<Entrada>, e: Entrada, h2: seq<Entrada>, agora: string)
    requires e.tipo != SAQUE && e.tipo != DEPOSITO
    ensures Replay(h1 + [e] + h2, agora) == Replay(h1 + h2, agora)
  {
    calc {
      Replay(h1 + [e] + h2, agora);
      { ReplayConcatena(h1 + [e], h2, agora); }
      Replay(h1 + [e], agora) + Replay(h2, agora);
      { ReplayConcatena(h1, [e], agora); }
      Replay(h1, agora) + Replay([e], agora) + Replay(h2, agora);
      { ReplayDeUma(e, agora); assert Replay([e], agora) == []; }
      Replay(h1, agora) + Replay(h2, agora);
      { ReplayConcatena(h1, h2, agora); }
      Replay(h1 + h2, agora);
    }
  }

  /** The replay of one entry: the entry again, with the new timestamp, when
      its tag is "Saque" or "Deposito"; nothing otherwise. */
  lemma ReplayDeUma(e: Entrada, agora: string)
    ensures Replay([e], agora) ==
      if e.tipo == SAQUE || e.tipo == DEPOSITO then [Entrada(e.tipo, e.valor, agora)] else []
  {
    assert [e][..0] == [];
  }

  /** An account as loaded: stored fields as they are (the balance is not
      re-applied), the constructor's agency, the replayed history. */
  function ContaCarregada(c: ContaDict, agora: string): (r: ContaDict)
    ensures r.numero == c.numero && r.saldo == c.saldo && r.clienteCpf == c.clienteCpf
    ensures r.limite == c.limite && r.limiteSaques == c.limiteSaques && r.agencia == AGENCIA
    ensures TiposValidos(r.historico) && |r.historico| <= |c.historico|
    ensures forall i :: 0 <= i < |r.historico| ==> r.historico[i].data == agora
  {
    ContaDict(c.numero, AGENCIA, c.saldo, c.clienteCpf, c.limite, c.limiteSaques, Replay(c.historico, agora))
  }

  /** A client as loaded: its `contas` are rebuilt from the accounts. */
  function ClienteCarregado(c: ClienteDict, contas: seq<ContaDict>): (r: ClienteDict)
    ensures r.nome == c.nome && r.dataNascimento == c.dataNascimento
    ensures r.cpf == c.cpf && r.endereco == c.endereco
  {
    c.(contas := NumerosDoCliente(contas, c.cpf))
  }

  /** The account numbers a reloaded client lists are exactly the numbers of
      the given accounts whose owner is that client, one per such account. */
  lemma {:induction false} NumerosDoClienteSao(cs: seq<ContaDict>, cpf: string)
    ensures |NumerosDoCliente(cs, cpf)| <= |cs|
    ensures forall n :: n in NumerosDoCliente(cs, cpf) <==>
      exists i :: 0 <= i < |cs| && cs[i].clienteCpf == cpf && cs[i].numero == n
    decreases |cs|
  {
    if cs != [] {
      var m := |cs| - 1;
      NumerosDoClienteSao(cs[..m], cpf);
      assert forall i :: 0 <= i < m ==> cs[..m][i] == cs[i];
    }
  }

  function CpfsConhecidos(a: Arquivo): set<string>
  {
    set k | k in CpfsDe(a.clientes)
  }

  /** The client the load holds under CPF `k`: the last stored record with
      that CPF, its `contas` rebuilt. */
  function ClienteDaChave(a: Arquivo, k: string): ClienteDict
    requires k in CpfsDe(a.clientes)
  {
    ClienteCarregado(a.clientes[UltimoIndice(CpfsDe(a.clientes), k)], a.contas)
  }

  /** The account the load holds under number `k`: the last record among
      `conhecidas` with that number, as loaded. */
  function ContaDaChave(conhecidas: seq<ContaDict>, k: string, agora: string): ContaDict
    requires k in NumerosDe(conhecidas)
  {
    ContaCarregada(conhecidas[UltimoIndice(NumerosDe(conhecidas), k)], agora)
  }

  /** The clients of the loaded graph, one per key in `ordem`. */
  function ClientesCarregados(a: Arquivo, ordem: seq<string>): (r: seq<ClienteDict>)
    requires forall k :: k in ordem ==> k in CpfsDe(a.clientes)
    ensures |r| == |ordem|
    ensures forall i :: 0 <= i < |ordem| ==> r[i] == ClienteDaChave(a, ordem[i])
  {
    if ordem == [] then []
    else
      var n := |ordem| - 1;
      ClientesCarregados(a, ordem[..n]) + [ClienteDaChave(a, ordem[n])]
  }

  /** The accounts of the loaded graph, one per key in `ordem`. */
  function ContasCarregadas(conhecidas: seq<ContaDict>, ordem: seq<string>, agora: string): (r: seq<ContaDict>)
    requires forall k :: k in ordem ==> k in NumerosDe(conhecidas)
    ensures |r| == |ordem|
    ensures forall i :: 0 <= i < |ordem| ==> r[i] == ContaDaChave(conhecidas, ordem[i], agora)
  {
    if ordem == [] then []
    else
      var n := |ordem| - 1;
      ContasCarregadas(conhecidas, ordem[..n], agora) + [ContaDaChave(conhecidas, ordem[n], agora)]
  }

  /** The document the loaded graph flattens to: whatever the stored
      document holds, the loaded clients have distinct CPFs, the loaded
      accounts distinct numbers, and every loaded account a known owner. */
  function Reconstruir(a: Arquivo, agora: string): (r: Arquivo)
    ensures r.proximoNumeroConta == a.proximoNumeroConta
    ensures Distintos(CpfsDe(r.clientes)) && Distintos(NumerosDe(r.contas))
    ensures forall c :: c in r.contas ==> c.clienteCpf in CpfsConhecidos(a)
  {
    var conhecidas := Conhecidas(a.contas, CpfsConhecidos(a));
    ClientesSemRepeticao(a, OrdemChaves(CpfsDe(a.clientes)));
    ContasSemRepeticao(a, conhecidas, OrdemChaves(NumerosDe(conhecidas)), agora);
    Arquivo(
      ClientesCarregados(a, OrdemChaves(CpfsDe(a.clientes))),
      ContasCarregadas(conhecidas, OrdemChaves(NumerosDe(conhecidas)), agora),
      a.proximoNumeroConta)
  }

  /** The loaded clients carry, in order, the CPFs they are stored under. */
  lemma ClientesSemRepeticao(a: Arquivo, ordem: seq<string>)
    requires forall k :: k in ordem ==> k in CpfsDe(a.clientes)
    requires Distintos(ordem)
    ensures Distintos(CpfsDe(ClientesCarregados(a, ordem)))
  {
    var r := ClientesCarregados(a, ordem);
    forall i | 0 <= i < |ordem| ensures CpfsDe(r)[i] == ordem[i] {
      assert ordem[i] in ordem;
    }
  }

  /** The loaded accounts carry, in order, the numbers they are stored
      under, and each has an owner among the stored clients. */
  lemma ContasSemRepeticao(a: Arquivo, conhecidas: seq<ContaDict>, ordem: seq<string>, agora: string)
    requires conhecidas == Conhecidas(a.contas, CpfsConhecidos(a))
    requires forall k :: k in ordem ==> k in NumerosDe(conhecidas)
    requires Distintos(ordem)
    ensures Distintos(NumerosDe(ContasCarregadas(conhecidas, ordem, agora)))
    ensures forall c :: c in ContasCarregadas(conhecidas, ordem, agora) ==> c.clienteCpf in CpfsConhecidos(a)
  {
    var r := ContasCarregadas(conhecidas, ordem, agora);
    forall i | 0 <= i < |ordem|
      ensures NumerosDe(r)[i] == ordem[i] && r[i].clienteCpf in CpfsConhecidos(a)
    {
      assert ordem[i] in ordem;
      var s := conhecidas[UltimoIndice(NumerosDe(conhecidas), ordem[i])];
      assert s in conhecidas;
    }
  }

  /** A document the running program itself writes: unique CPFs and account
      numbers, no orphan accounts, the fixed agency, only the two transaction
      tags, and each client's account list matching the accounts. */
  predicate BemFormado(a: Arquivo)
  {
    && Distintos(CpfsDe(a.clientes))
    && Distintos(NumerosDe(a.contas))
    && (forall c :: c in a.contas ==>
          c.clienteCpf in CpfsConhecidos(a) && c.agencia == AGENCIA && TiposValidos(c.historico))
    && (forall c :: c in a.clientes ==> c.contas == NumerosDoCliente(a.contas, c.cpf))
  }

  lemma {:induction false} OrdemChavesDeDistintas(ks: seq<string>)
    requires Distintos(ks)
    ensures OrdemChaves(ks) == ks
  {
    if ks != [] {
      var n := |ks| - 1;
      assert Distintos(ks[..n]);
      OrdemChavesDeDistintas(ks[..n]);
      assert ks[n] !in ks[..n];
      assert ks[..n] + [ks[n]] == ks;
    }
  }

  /** Inserting one more key: the position of the value for `k` moves to the
      new key when it is `k`, and stays where it was otherwise. */
  lemma UltimoIndiceAnexa(ks: seq<string>, x: string, k: string)
    requires k in ks + [x]
    ensures UltimoIndice(ks + [x], k) == if x == k then |ks| else UltimoIndice(ks, k)
  {
    var i := UltimoIndice(ks + [x], k);
    if x != k {
      assert k in ks by { assert (ks + [x])[i] == k; }
      var j := UltimoIndice(ks, k);
      assert (ks + [x])[j] == k;
    }
  }

  lemma {:induction false} ConhecidasTodas(cs: seq<ContaDict>, cpfs: set<string>)
    requires forall c :: c in cs ==> c.clienteCpf in cpfs
    ensures Conhecidas(cs, cpfs) == cs
  {
    if cs != [] {
      var n := |cs| - 1;
      assert cs[..n] + [cs[n]] == cs;
      assert forall c :: c in cs[..n] ==> c in cs;
      ConhecidasTodas(cs[..n], cpfs);
      assert cs[n] in cs;
    }
  }

  /** On entries with the two valid tags, the replay keeps every (tipo, valor)
      pair in order; only the timestamps change. */
  lemma {:induction false} ReplayPreservaResumo(h: seq<Entrada>, agora: string)
    requires TiposValidos(h)
    ensures Resumo(Replay(h, agora)) == Resumo(h)
  {
    if h != [] {
      var n := |h| - 1;
      assert TiposValidos(h[..n]);
      ReplayPreservaResumo(h[..n], agora);
      var r := Replay(h, agora);
      assert r == Replay(h[..n], agora) + [Entrada(h[n].tipo, h[n].valor, agora)];
      assert Resumo(r) == Resumo(Replay(h[..n], agora)) + [(h[n].tipo, h[n].valor)];
      assert Resumo(h) == Resumo(h[..n]) + [(h[n].tipo, h[n].valor)];
    }
  }

  /** One account written by `to_dict` and loaded back: number, agency,
      balance, owner CPF, ceiling and count limit come back unchanged, and
      so does the ordered (tipo, valor) history; only the timestamps are new. */
  lemma ContaIdaEVolta(c: ContaDict, agora: string)
    requires c.agencia == AGENCIA && TiposValidos(c.historico)
    ensures var r := ContaCarregada(c, agora);
      && r.numero == c.numero && r.agencia == c.agencia && r.saldo == c.saldo
      && r.clienteCpf == c.clienteCpf && r.limite == c.limite && r.limiteSaques == c.limiteSaques
      && Resumo(r.historico) == Resumo(c.historico)
      && forall i :: 0 <= i < |r.historico| ==> r.historico[i].data == agora
  {
    ReplayPreservaResumo(c.historico, agora);
  }

  /** A missing file or one that is not valid JSON: an empty ledger with next account number 1. */
  lemma RecargaSemArquivo(f: Fonte, agora: string)
    requires !f.Lido?
    ensures Reconstruir(ArquivoDe(f), agora) == Arquivo([], [], 1)
  {
  }

  /** Every loaded account comes from a stored account whose owner is a
      stored client, with the stored balance and limits and the replayed
      history; and every stored account with a known owner has its number
      among the loaded ones. */
  lemma ContasRecarregadas(a: Arquivo, agora: string)
    ensures forall c :: c in Reconstruir(a, agora).contas ==>
      exists s :: s in a.contas && s.clienteCpf in CpfsConhecidos(a) && c == ContaCarregada(s, agora)
    ensures forall s :: s in a.contas && s.clienteCpf in CpfsConhecidos(a) ==>
      s.numero in NumerosDe(Reconstruir(a, agora).contas)
  {
    var conhecidas := Conhecidas(a.contas, CpfsConhecidos(a));
    var ordem := OrdemChaves(NumerosDe(conhecidas));
    assert Reconstruir(a, agora).contas == ContasCarregadas(conhecidas, ordem, agora);
    ContasDeOrigem(conhecidas, ordem, agora);
    forall s | s in a.contas && s.clienteCpf in CpfsConhecidos(a)
      ensures s.numero in NumerosDe(ContasCarregadas(conhecidas, ordem, agora))
    {
      NumeroCarregado(conhecidas, ordem, s, agora);
    }
  }

  /** Every loaded account is the reload of some account of `conhecidas`. */
  lemma ContasDeOrigem(conhecidas: seq<ContaDict>, ordem: seq<string>, agora: string)
    requires ordem == OrdemChaves(NumerosDe(conhecidas))
    ensures forall c :: c in ContasCarregadas(conhecidas, ordem, agora) ==>
      exists s :: s in conhecidas && c == ContaCarregada(s, agora)
  {
    var contas := ContasCarregadas(conhecidas, ordem, agora);
    forall c | c in contas
      ensures exists s :: s in conhecidas && c == ContaCarregada(s, agora)
    {
      var i :| 0 <= i < |contas| && contas[i] == c;
      var s := conhecidas[UltimoIndice(NumerosDe(conhecidas), ordem[i])];
      assert s in conhecidas;
    }
  }

  lemma NumeroCarregado(conhecidas: seq<ContaDict>, ordem: seq<string>, s: ContaDict, agora: string)
    requires ordem == OrdemChaves(NumerosDe(conhecidas))
    requires s in conhecidas
    ensures s.numero in NumerosDe(ContasCarregadas(conhecidas, ordem, agora))
  {
    var j :| 0 <= j < |conhecidas| && conhecidas[j] == s;
    assert NumerosDe(conhecidas)[j] == s.numero;
    assert s.numero in ordem;
    var i :| 0 <= i < |ordem| && ordem[i] == s.numero;
    var contas := ContasCarregadas(conhecidas, ordem, agora);
    assert NumerosDe(contas)[i] == contas[i].numero;
  }

  lemma RecargaPreservaClientes(a: Arquivo, agora: string)
    requires BemFormado(a)
    ensures Reconstruir(a, agora).clientes == a.clientes
  {
    var ks := CpfsDe(a.clientes);
    OrdemChavesDeDistintas(ks);
    var r := ClientesCarregados(a, ks);
    forall i | 0 <= i < |a.clientes| ensures r[i] == a.clientes[i] {
      assert ks[i] in ks;
      assert UltimoIndice(ks, ks[i]) == i;
      assert a.clientes[i] in a.clientes;
    }
  }

  lemma RecargaPreservaContas(a: Arquivo, agora: string)
    requires BemFormado(a)
    ensures var r := Reconstruir(a, agora).contas;
      && |r| == |a.contas|
      && forall i :: 0 <= i < |a.contas| ==>
           && r[i].(historico := []) == a.contas[i].(historico := [])
           && Resumo(r[i].historico) == Resumo(a.contas[i].historico)
  {
    ConhecidasTodas(a.contas, CpfsConhecidos(a));
    var ks := NumerosDe(a.contas);
    OrdemChavesDeDistintas(ks);
    var r := ContasCarregadas(a.contas, ks, agora);
    forall i | 0 <= i < |a.contas|
      ensures r[i].(historico := []) == a.contas[i].(historico := [])
      ensures Resumo(r[i].historico) == Resumo(a.contas[i].historico)
    {
      assert ks[i] in ks;
      assert UltimoIndice(ks, ks[i]) == i;
      assert a.contas[i] in a.contas;
      ReplayPreservaResumo(a.contas[i].historico, agora);
    }
  }

  /** Round trip: a document written by the program loads into a graph that
      flattens back to the same document, except that history timestamps are
      regenerated. */
  lemma RecargaPreserva(a: Arquivo, agora: string)
    requires BemFormado(a)
    ensures var r := Reconstruir(a, agora);
      && r.clientes == a.clientes
      && r.proximoNumeroConta == a.proximoNumeroConta
      && |r.contas| == |a.contas|
      && forall i :: 0 <= i < |a.contas| ==>
           && r.contas[i].(historico := []) == a.contas[i].(historico := [])
           && Resumo(r.contas[i].historico) == Resumo(a.contas[i].historico)
  {
    RecargaPreservaClientes(a, agora);
    RecargaPreservaContas(a, agora);
  }
}
