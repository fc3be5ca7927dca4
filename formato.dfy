/** The flat, persisted shape of the ledger: what `to_dict` produces and what
    the load reads back. JSON text itself is not modelled; these records are
    the decoded dictionaries. */
module Formato {
  import opened Transacoes

  /** `PessoaFisica.to_dict`: identity fields and the numbers of the owned
      accounts. */
  datatype ClienteDict = ClienteDict(
    nome: string,
    dataNascimento: string,
    cpf: string,
    endereco: string,
    contas: seq<string>)

  /** `ContaCorrente.to_dict`: all account fields, the owner's CPF and the
      full history. */
  datatype ContaDict = ContaDict(
    numero: string,
    agencia: string,
    saldo: int,
    clienteCpf: string,
    limite: int,
    limiteSaques: int,
    historico: seq<Entrada>)

  /** The whole persisted document. */
  datatype Arquivo = Arquivo(
    clientes: seq<ClienteDict>,
    contas: seq<ContaDict>,
    proximoNumeroConta: int)

  /** The outcomes of reading the data file that the load handles: no file,
      a file that is not valid JSON, or a decoded document. Other read
      failures abort the load and are not modelled. */
  datatype Fonte = Ausente | Corrompido | Lido(arquivo: Arquivo)

  /** The document the load starts from: a missing file or one that is not
      valid JSON falls back to the empty one with next account number 1. */
  function ArquivoDe(f: Fonte): Arquivo
  {
    match f
    case Lido(a) => a
    case Ausente => Arquivo([], [], 1)
    case Corrompido => Arquivo([], [], 1)
  }
}
