# Bank ledger model (desafio DIO "sistema bancário")

A Dafny model of the account ledger of the two versions of the DIO banking
exercise: clients (`PessoaFisica`), checking accounts (`ContaCorrente`), the
deposit and withdrawal transactions (`Deposito`, `Saque`), the per-account
history (`Historico`), client lookup and the CPF check, account creation, the
flat dictionaries written by `to_dict`, and the reconstruction of the object
graph in `carregar_dados`. Amounts are integers in minor units.

Files and modules:

- `transacoes.dfy` (`Transacoes`): the transaction value, the history entry
  `{tipo, valor, data}`, the `Historico` class, the count of `"Saque"`
  entries that `ContaCorrente.sacar` computes, and the deposits-minus-
  withdrawals total of a history. Both versions use this `Historico`.
- `contas.dfy` (`Contas`): the 2-2 client and account classes. `EstadoConta`
  is the abstract state of an account (balance, ceiling, withdrawal count
  limit, history); `VereditoSaque` gives which check of `sacar` decides the
  outcome; `Aplicar` is what one `registrar` does. The class methods are
  proved against these functions, and the lemmas prove that an account
  changed only through `registrar` keeps a truthful history: the balance is
  the recorded deposits minus the recorded withdrawals, it is not negative,
  and no more withdrawals are recorded than the account allows.
- `clientes.dfy` (`Clientes`): `filtrar_cliente` and the CPF format check.
- `formato.dfy` (`Formato`): the persisted document as datatypes
  (`ClienteDict`, `ContaDict`, `Arquivo`) and the three outcomes of reading
  the data file that the load handles (`Fonte`): missing, not valid JSON, or
  read.
- `recarga.dfy` (`Recarga`): `Reconstruir`, the document that the loaded
  graph flattens back to, written as a function, with its properties: empty
  ledger from a missing file or one that is not valid JSON, orphan accounts dropped, unknown
  history tags skipped, stored balance kept, and the round trip of a
  document the program writes.
- `persistencia.dfy` (`Persistencia`): the loops of `carregar_dados` on live
  objects, proved to build a graph that flattens to `Reconstruir` and whose
  every account is listed by the client it points back to.
- `sistema.dfy` (`Sistema`): the ledger (`clientes`, `contas`,
  `proximo_numero_conta`), the flattening handed to the JSON encoder, and the
  parts of `criar_cliente` and `criar_conta` that follow the console input.
- `versao_inicial.dfy` (`VersaoInicial`): the 1-2 version, whose account
  checks only positivity and funds and whose `registrar` never writes the
  history.

Notes on the behaviour modelled:

- `ContaCorrente.sacar` checks the ceiling, then the withdrawal count, then
  funds, and only then positivity (in `_realizar_operacao`). So a
  non-positive amount is refused last.
- Failures are reported as `False` plus a printed message, not as error
  values. `Contas.VereditoSaque` names which message a withdrawal ends with.
- An account created by `criar_conta` does not take its opening balance
  into the balance field; see Findings.
- The load ignores the stored `agencia` and the stored client `contas`
  list: the constructor sets agency `"0001"`, and `contas` is rebuilt from
  the accounts.
- Python dictionaries keep a key at the position of its first insertion
  and hold the value of its last. The model describes this with
  `Recarga.OrdemChaves` and `Recarga.UltimoIndice`, so duplicate CPFs or
  account numbers in a document load as the source loads them.

## Model

| member | source | states |
|---|---|---|
| `Transacoes.Historico.constructor` | desafio_DIO_sisten_bank_2-2.py:290-291 | a new history is empty |
| `Transacoes.Historico.AdicionarTransacao` | desafio_DIO_sisten_bank_2-2.py:297-310 | appends exactly one entry at the end, with the class name as tipo, the amount and the given timestamp; earlier entries are unchanged |
| `Transacoes.NomeDaClasse` | desafio_DIO_sisten_bank_2-2.py:306 | the recorded tipo is "Saque" exactly for a withdrawal and "Deposito" exactly for a deposit |
| `Transacoes.ContaSaques` | desafio_DIO_sisten_bank_2-2.py:236-242 | the number of history entries tagged "Saque" is at most the history length, and is zero exactly when no entry is tagged "Saque" |
| `Transacoes.ContaSaquesAnexa` | desafio_DIO_sisten_bank_2-2.py:236-242 | appending an entry raises the withdrawal count by one when it is a "Saque" and leaves it unchanged otherwise |
| `Transacoes.SaldoDoExtratoAnexa` | desafio_DIO_sisten_bank_2-2.py:343-364 | appending an entry moves the history's deposits-minus-withdrawals total by that entry's signed amount |
| `Contas.VereditoSaque` | desafio_DIO_sisten_bank_2-2.py:236-255 | a withdrawal is accepted iff amount ≤ ceiling, withdrawal count < limit, amount ≤ balance and amount > 0; it is refused for the ceiling iff amount > ceiling, for the count iff the ceiling check passes and the count has reached the limit, for funds iff both pass and amount > balance, and as invalid iff all three pass and amount ≤ 0 |
| `Contas.Aplicar` | desafio_DIO_sisten_bank_2-2.py:343-364 | one `registrar`: an accepted operation appends exactly its entry to the history, a refused one changes nothing; ceiling and count limit never change, and the balance moves exactly as the history's deposits-minus-withdrawals total |
| `Contas.AplicarPreservaConsistencia` | desafio_DIO_sisten_bank_2-2.py:343-364 | one `registrar` keeps the balance equal to deposits minus withdrawals in the history, non-negative, with no more recorded withdrawals than allowed |
| `Contas.ExecucaoConsistente` | desafio_DIO_sisten_bank_2-2.py:343-364 | any sequence of `registrar` calls keeps that invariant |
| `Contas.ContaNovaConsistente` | desafio_DIO_sisten_bank_2-2.py:343-364 | from balance 0 and an empty history, after any sequence of `registrar` calls, balance = deposits − withdrawals in the history and the count of "Saque" entries ≤ limite_saques |
| `Contas.HistoricoSoCresce` | desafio_DIO_sisten_bank_2-2.py:304-310 | registering only ever extends the history: earlier entries, the ceiling and the count limit never change |
| `Contas.CenarioLimiteEContagem` | desafio_DIO_sisten_bank_2-2.py:244-255 | ceiling 500 and 3 withdrawals: deposit 500 accepted; 600 refused for the ceiling with nothing changed; 300, 1 and 1 accepted; a fourth withdrawal refused for the count |
| `Contas.PessoaFisica.constructor` | desafio_DIO_sisten_bank_2-2.py:74-78 | a new client holds the given identity fields and no accounts |
| `Contas.PessoaFisica.AdicionarConta` | desafio_DIO_sisten_bank_2-2.py:53-60 | the account is appended at the end of `contas` |
| `Contas.PessoaFisica.RealizarTransacao` | desafio_DIO_sisten_bank_2-2.py:43-51 | the account changes exactly as one `registrar` of the transaction, and its history stays truthful |
| `Contas.PessoaFisica.ToDict` | desafio_DIO_sisten_bank_2-2.py:80-93 | the client's dictionary carries its name, birth date, CPF and address and lists its account numbers one per account, in order |
| `Contas.NumerosDasContas` | desafio_DIO_sisten_bank_2-2.py:92 | a client's `to_dict` lists the numbers of its accounts, one per account, in order |
| `Contas.ContaCorrente.constructor` | desafio_DIO_sisten_bank_2-2.py:214-224 | a new account holds the given number, owner, ceiling, count limit and balance, agency "0001" and a fresh empty history |
| `Contas.ContaCorrente.NovaConta` | desafio_DIO_sisten_bank_2-2.py:115-128 | `nova_conta` on a checking account stores its third argument as the ceiling, takes the default count limit and starts at balance 0 |
| `Contas.ContaCorrente.RealizarOperacao` | desafio_DIO_sisten_bank_2-2.py:150-172 | succeeds iff the amount is positive; then subtracts for "saque", adds for "deposito"; a refusal leaves the balance unchanged |
| `Contas.ContaCorrente.ContaSacar` | desafio_DIO_sisten_bank_2-2.py:174-187 | succeeds iff 0 < amount ≤ balance, subtracting exactly the amount; otherwise the balance is unchanged |
| `Contas.ContaCorrente.Sacar` | desafio_DIO_sisten_bank_2-2.py:226-255 | returns true iff the withdrawal passes ceiling, count, funds and positivity; subtracts exactly the amount then, the balance staying ≥ 0; any refusal leaves the balance unchanged |
| `Contas.ContaCorrente.Depositar` | desafio_DIO_sisten_bank_2-2.py:189-199 | a positive amount raises the balance by exactly that amount and returns true; otherwise false with the balance unchanged |
| `Contas.ContaCorrente.ToDict` | desafio_DIO_sisten_bank_2-2.py:264-279 | the account's dictionary carries its number, agency, balance, owner CPF, ceiling, count limit and its history as is; for an account with a truthful history, the dictionary's balance is its history's deposits minus withdrawals and every tag is valid |
| `Contas.Registrar` | desafio_DIO_sisten_bank_2-2.py:343-364 | appends exactly the entry for the transaction at the end of the history iff the operation returned true, otherwise leaves the history unchanged; keeps the history truthful |
| `Contas.TesteSaqueDentroDoLimite` | desafio_DIO_sisten_bank_2-2.py:781-784 | ceiling 1000: deposit 500 then withdraw 300 succeeds, balance 200 |
| `Contas.TesteSaqueAcimaDoLimite` | desafio_DIO_sisten_bank_2-2.py:786-789 | ceiling 1000: deposit 500 then withdraw 1200 fails, balance stays 500 |
| `Clientes.FiltrarCliente` | desafio_DIO_sisten_bank_2-2.py:471-483 | None iff no client has the CPF; otherwise a client with that CPF at a position before which no client has it (the first match) |
| `Clientes.SoDigitos` | desafio_DIO_sisten_bank_2-2.py:608 | true iff the string is non-empty and every character is an ASCII decimal digit; like `str.isdigit`, false on the empty string |
| `Clientes.CpfValido` | desafio_DIO_sisten_bank_2-2.py:607-610 | a CPF is accepted iff it has exactly 11 characters, all digits |
| `Recarga.OrdemChaves` | desafio_DIO_sisten_bank_2-2.py:445-446 | the dictionary's keys after inserting a key sequence: the same set of keys, each once |
| `Recarga.UltimoIndice` | desafio_DIO_sisten_bank_2-2.py:417 | the value a dictionary holds for a key comes from the last insertion under that key |
| `Recarga.Conhecidas` | desafio_DIO_sisten_bank_2-2.py:420-424 | the accounts kept by the load are exactly the stored accounts whose owner CPF is a known client |
| `Recarga.Replay` | desafio_DIO_sisten_bank_2-2.py:432-440 | the replayed history is no longer than the stored one, carries only "Saque" and "Deposito" tags and the new timestamp |
| `Recarga.ReplayDeUma` | desafio_DIO_sisten_bank_2-2.py:434-440 | a single stored entry replays to one entry with its tipo and valor and the new timestamp when its tag is "Saque" or "Deposito", and to nothing otherwise |
| `Recarga.ReplayConcatena` | desafio_DIO_sisten_bank_2-2.py:433-440 | replaying two stored histories one after the other is replaying their concatenation: the loop handles each entry independently |
| `Recarga.ReplayIgnoraOutros` | desafio_DIO_sisten_bank_2-2.py:438-439 | a stored entry with any other tag, at any position of the history, adds nothing to the replayed history |
| `Recarga.ReplayPreservaResumo` | desafio_DIO_sisten_bank_2-2.py:432-440 | on a history with valid tags, the replay keeps every (tipo, valor) pair in order |
| `Recarga.OrdemChavesDeDistintas` | desafio_DIO_sisten_bank_2-2.py:445-446 | keys inserted without repeats come back in insertion order |
| `Recarga.ConhecidasTodas` | desafio_DIO_sisten_bank_2-2.py:420-424 | when every account's owner is known, no account is dropped |
| `Recarga.ContaIdaEVolta` | desafio_DIO_sisten_bank_2-2.py:425-440 | an account dictionary loaded back keeps numero, agencia, saldo, owner cpf, limite, limite_saques and the ordered (tipo, valor) history; only timestamps are regenerated |
| `Recarga.RecargaSemArquivo` | desafio_DIO_sisten_bank_2-2.py:397-405 | a missing file or one that is not valid JSON loads as no clients, no accounts and next account number 1 |
| `Recarga.ClienteCarregado` | desafio_DIO_sisten_bank_2-2.py:410-417 | a reloaded client keeps the stored name, birth date, CPF and address |
| `Recarga.NumerosDoClienteSao` | desafio_DIO_sisten_bank_2-2.py:420-442 | the account numbers a reloaded client lists are exactly the numbers of the kept accounts it owns, no more of them than there are accounts |
| `Recarga.ContaCarregada` | desafio_DIO_sisten_bank_2-2.py:425-440 | a kept account loads with its stored number, balance, owner CPF, ceiling and count limit, agency "0001", and a history no longer than the stored one with only valid tags, every entry stamped with the load time |
| `Recarga.Reconstruir` | desafio_DIO_sisten_bank_2-2.py:407-451 | whatever the document holds, the loaded clients have pairwise distinct CPFs, the loaded accounts pairwise distinct numbers, every loaded account's owner is a stored client, and the next account number is kept |
| `Recarga.ClientesSemRepeticao` | desafio_DIO_sisten_bank_2-2.py:407-417 | the clients listed from the clients dictionary have distinct CPFs |
| `Recarga.ContasSemRepeticao` | desafio_DIO_sisten_bank_2-2.py:419-446 | the accounts listed from the accounts dictionary have distinct numbers and only known owners |
| `Recarga.ContasRecarregadas` | desafio_DIO_sisten_bank_2-2.py:420-442 | every loaded account comes from a stored account with a known owner, with the stored balance (not re-applied) and replayed history; every such stored account's number is loaded |
| `Recarga.ContasDeOrigem` | desafio_DIO_sisten_bank_2-2.py:420-446 | every account listed from the accounts dictionary is the reload of some kept stored account |
| `Recarga.RecargaPreservaClientes` | desafio_DIO_sisten_bank_2-2.py:407-417 | a document the program writes loads back to the same client records |
| `Recarga.RecargaPreservaContas` | desafio_DIO_sisten_bank_2-2.py:419-446 | a document the program writes loads back to the same accounts in order, with the same fields and (tipo, valor) history |
| `Recarga.RecargaPreserva` | desafio_DIO_sisten_bank_2-2.py:407-451 | save then load of a document the program writes: same clients, same next number, same accounts with the same balances and history sequences; only timestamps differ |
| `Persistencia.Valores` | desafio_DIO_sisten_bank_2-2.py:445-446 | `list(d.values())`: one value per key, the i-th being the value stored under the i-th key |
| `Persistencia.RecarregarHistorico` | desafio_DIO_sisten_bank_2-2.py:432-440 | the replay loop appends exactly `Replay` of the stored entries and touches nothing else |
| `Persistencia.IndexarCliente` | desafio_DIO_sisten_bank_2-2.py:410-417 | one pass of the clients loop: the index covers one more stored record, the key order follows first insertion, and each client holds the last record under its CPF |
| `Persistencia.IndexarClientes` | desafio_DIO_sisten_bank_2-2.py:407-417 | the clients dictionary has one fresh client per stored CPF, in first-insertion order, holding the last record with that CPF and no accounts |
| `Persistencia.CarregarConta` | desafio_DIO_sisten_bank_2-2.py:425-440 | a loaded account has the stored fields, the given owner and the replayed history; the balance is set, not re-applied |
| `Persistencia.IdaEVolta` | desafio_DIO_sisten_bank_2-2.py:264-279 | an account flattened by `to_dict` and loaded back keeps number, agency, balance, ceiling, count limit and its (tipo, valor) history |
| `Persistencia.IndexarConta` | desafio_DIO_sisten_bank_2-2.py:425-441 | one kept account is built fresh for its owner with the stored number and stored under it; afterwards every indexed number maps to an account flattening to the reload of its last stored record, with keys in first-insertion order |
| `Persistencia.NumerosDosConhecidos` | desafio_DIO_sisten_bank_2-2.py:420-442 | dropping orphan accounts does not change which accounts a known client owns |
| `Persistencia.Vincular` | desafio_DIO_sisten_bank_2-2.py:442 | the owner's `contas` gains the loaded account at the end, and every indexed account stays listed by its owner |
| `Persistencia.AssociarConta` | desafio_DIO_sisten_bank_2-2.py:421-442 | one pass for an account with a known owner keeps the loop invariant: accounts indexed as reloaded, each pointing to the client under its CPF and listed by it, each client listing its accounts' numbers in stored order |
| `Persistencia.PassoDaCarga` | desafio_DIO_sisten_bank_2-2.py:420-442 | one pass of the accounts loop: an account whose owner CPF is unknown is skipped (`if cliente:`), a known one is associated; the invariant then holds for the kept accounts seen so far |
| `Persistencia.AssociarContas` | desafio_DIO_sisten_bank_2-2.py:419-442 | after the accounts loop every kept account is indexed by number, points to the client under its owner CPF and is listed by it, and each client lists its accounts in stored order |
| `Persistencia.ContasReferenciadas` | desafio_DIO_sisten_bank_2-2.py:441-446 | every account in the loaded list points to a client in the loaded list that lists it |
| `Persistencia.CpfsDosValores` | desafio_DIO_sisten_bank_2-2.py:407-445 | listing a dictionary whose clients sit under their own CPFs, with keys that do not repeat, gives clients with pairwise distinct CPFs |
| `Persistencia.CarregarDados` | desafio_DIO_sisten_bank_2-2.py:388-451 | the loaded ledger flattens to `Reconstruir` of the document (the empty one for a missing file or one that is not valid JSON), its clients have pairwise distinct CPFs, and every account points back to a loaded client that lists it |
| `Sistema.Digitos` | desafio_DIO_sisten_bank_2-2.py:694 | the decimal text of a natural number is non-empty, all digits, and a single digit exactly for numbers below 10 |
| `Sistema.DigitosInjetivo` | desafio_DIO_sisten_bank_2-2.py:694 | distinct natural numbers have distinct decimal texts |
| `Sistema.NumeroParaTexto` | desafio_DIO_sisten_bank_2-2.py:694 | `str` of an integer: digits only for a non-negative number, a '-' followed by digits for a negative one |
| `Sistema.NumeroParaTextoInjetivo` | desafio_DIO_sisten_bank_2-2.py:694 | distinct account counters give distinct account numbers |
| `Sistema.ClientesParaDict` | desafio_DIO_sisten_bank_2-2.py:465 | the encoder's list of clients: one `to_dict` per client, in list order |
| `Sistema.ContasParaDict` | desafio_DIO_sisten_bank_2-2.py:465 | the encoder's list of accounts: one `to_dict` per account, in list order |
| `Sistema.Banco.Serializar` | desafio_DIO_sisten_bank_2-2.py:465 | the document handed to the encoder has one client dictionary and one account dictionary per object, in list order, and the next number; distinct CPFs in the ledger stay distinct in the document, and every account's owner CPF is a listed client's CPF when references are consistent |
| `Sistema.Banco.CriarCliente` | desafio_DIO_sisten_bank_2-2.py:607-646 | a client is added at the end iff the CPF is 11 digits and not yet registered; CPF uniqueness is preserved; otherwise nothing changes |
| `Sistema.Banco.CriarConta` | desafio_DIO_sisten_bank_2-2.py:693-700 | as written: the account gets the opening balance as ceiling, balance = opening (if positive) through one recorded deposit, and is appended to the ledger and to the owner |
| `Sistema.Banco.CriarContaCorrigida` | desafio_DIO_sisten_bank_2-2.py:693-700 | as intended: default ceiling and count limit, the opening balance entered once as a recorded deposit, history truthful |
| `Sistema.AberturaViraLimite` | desafio_DIO_sisten_bank_2-2.py:116-128 | with the account as written, an opening balance of 0 refuses every withdrawal and one of 100 refuses a covered withdrawal of 150 that the default ceiling allows |
| `VersaoInicial.SaldoApos` | desafio_DIO_sisten_bank_1-2.py:65-100 | one `registrar`: a withdrawal lowers the balance iff 0 < amount ≤ balance, and then by exactly the amount; a deposit raises it iff the amount is positive, by exactly the amount; otherwise the balance is unchanged, and a non-negative balance stays non-negative |
| `VersaoInicial.SaldoNuncaNegativo` | desafio_DIO_sisten_bank_1-2.py:65-84 | a non-negative balance stays non-negative through any sequence of `registrar` calls |
| `VersaoInicial.SaldoEntreLimites` | desafio_DIO_sisten_bank_1-2.py:65-84 | after any sequence of `registrar` calls the balance lies between the start minus the positive withdrawal amounts and the start plus the positive deposit amounts |
| `VersaoInicial.PessoaFisica.constructor` | desafio_DIO_sisten_bank_1-2.py:16-20 | a new client holds the given fields and no accounts |
| `VersaoInicial.PessoaFisica.AdicionarConta` | desafio_DIO_sisten_bank_1-2.py:12-13 | the account is appended at the end of `contas`, earlier entries intact |
| `VersaoInicial.PessoaFisica.RealizarTransacao` | desafio_DIO_sisten_bank_1-2.py:9-10 | the balance changes as one `registrar` and the history is untouched |
| `VersaoInicial.ContaCorrente.constructor` | desafio_DIO_sisten_bank_1-2.py:40-63 | a new account has balance 0, agency "0001", an empty history and the given ceiling and count limit |
| `VersaoInicial.ContaCorrente.Sacar` | desafio_DIO_sisten_bank_1-2.py:65-75 | succeeds iff 0 < amount ≤ balance, subtracting exactly the amount so the balance stays ≥ 0; otherwise unchanged; ceiling and count are not consulted |
| `VersaoInicial.ContaCorrente.Depositar` | desafio_DIO_sisten_bank_1-2.py:77-84 | a positive amount is added exactly and true returned; otherwise false, balance unchanged |
| `VersaoInicial.Registrar` | desafio_DIO_sisten_bank_1-2.py:94-100 | dispatches to the matching operation and never modifies the history |
| `VersaoInicial.SaqueAcimaDoLimite` | desafio_DIO_sisten_bank_1-2.py:60-75 | default ceiling 500: a withdrawal of 800 from a balance of 1000 succeeds |
| `VersaoInicial.QuartoSaque` | desafio_DIO_sisten_bank_1-2.py:60-100 | default count limit 3: a fourth withdrawal succeeds and the history is still empty |

## Left out

- Console I/O and the menu: `menu`, the `main` loop, the prompts of `depositar`, `sacar`, `exibir_extrato`, `criar_cliente`, `criar_conta`, the input loop of `recuperar_conta_cliente`, `listar_contas` and `__str__`. Inputs become method parameters; printed messages are not modelled (`Contas.VereditoSaque` says which one a withdrawal prints).
- File access and JSON: `open`, `json.load` and `json.dump`. `Formato.Fonte` stands for the three outcomes of reading the file that the load handles: missing (`FileNotFoundError`), not valid JSON (`json.JSONDecodeError`), or read; `Sistema.Banco.Serializar` is the document handed to the encoder. Write failures in `salvar_dados`, which are caught and printed, are not modelled.
- Read failures the load does not catch: `PermissionError` or `IsADirectoryError` from `open`, a `UnicodeDecodeError` while reading, and a valid JSON value at the top level that is not an object (the `AttributeError` of `dados.get`) abort the load; they are not modelled.
- A document missing one of its keys: `dados.get` defaults and the `KeyError` a record without a field would raise are not modelled; `Formato.Arquivo` always has every field.
- `buscar_endereco_por_cep`, an HTTP call to ViaCEP: the address is a parameter of `Sistema.Banco.CriarCliente`.
- The date-of-birth check by `datetime.strptime` in `criar_cliente`: the date is taken as given.
- `log_transaction`, which only prints.
- Timestamps: `datetime.now()` becomes an opaque string parameter. Each call of the source may read a different time; one load uses the same string for every replayed entry.
- Float arithmetic: amounts are integers in minor units; rounding is not modelled.
- `Clientes.SoDigitos` and `Clientes.CpfValido`: only ASCII digits count as digits, while Python's `str.isdigit` also accepts other Unicode digit characters.
- `Recarga.RecargaPreserva`: stated for documents satisfying `Recarga.BemFormado` (distinct CPFs and account numbers, no orphan accounts, agency "0001", only the two tags, client `contas` matching the accounts). The model does not prove that every ledger the program runs serialises to such a document, since account-number uniqueness rests on `proximo_numero_conta`, which the model does not track as an invariant.
- The 1-2 `Historico` writes its date as `%d/%m/%Y` where 2-2 writes `%d-%m-%Y`; both versions share `Transacoes.Historico` because timestamps are opaque. The 1-2 `adicionar_transacao` is never called there.
- The unit-test harness: its two scenarios are `Contas.TesteSaqueDentroDoLimite` and `Contas.TesteSaqueAcimaDoLimite`.

## Findings

| source | as written | input that shows it | evidently intended | confidence | as-written member | corrected member |
|---|---|---|---|---|---|---|
| desafio_DIO_sisten_bank_2-2.py:128 | `nova_conta` calls `cls(numero, cliente, saldo)`; for `ContaCorrente` the third positional parameter is `limite`, so the opening balance becomes the per-withdrawal ceiling and the balance starts at 0 | opening balance 0 gives ceiling 0, so every withdrawal is refused; opening 100 then a deposit of 100 refuses a withdrawal of 150 | default ceiling 500, the opening balance entering the balance once through the recorded deposit | high; not executed | `Sistema.Banco.CriarConta`, `Sistema.AberturaViraLimite` | `Sistema.Banco.CriarContaCorrigida` |
