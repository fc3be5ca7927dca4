/** Client lookup by CPF (`filtrar_cliente`) and the CPF format check made
    when a client is registered. */
module Clientes {
  import opened Contas

  datatype Option<T> = None | Some(value: T)

  /** Position of the first client whose CPF is `cpf`; `|clientes|` when
      there is none. */
  function PrimeiroIndice(cpf: string, clientes: seq<PessoaFisica>): (k: nat)
    ensures k <= |clientes|
    ensures forall j :: 0 <= j < k ==> clientes[j].cpf != cpf
    ensures k < |clientes| ==> clientes[k].cpf == cpf
  {
    if clientes == [] then 0
    else if clientes[0].cpf == cpf then 0
    else 1 + PrimeiroIndice(cpf, clientes[1..])
  }

  /** `filtrar_cliente`: the first element of the clients with a matching CPF,
      or None when that list is empty. */
  function FiltrarCliente(cpf: string, clientes: seq<PessoaFisica>): (r: Option<PessoaFisica>)
    ensures r.None? <==> forall i :: 0 <= i < |clientes| ==> clientes[i].cpf != cpf
    ensures r.Some? ==> exists i :: 0 <= i < |clientes| && clientes[i] == r.value
                         && r.value.cpf == cpf
                         && forall j :: 0 <= j < i ==> clientes[j].cpf != cpf
  {
    var k := PrimeiroIndice(cpf, clientes);
    if k < |clientes| then Some(clientes[k]) else None
  }

  predicate EhDigito(c: char)
  {
    '0' <= c <= '9'
  }

  function TodosDigitos(s: string): (b: bool)
    ensures b <==> forall i :: 0 <= i < |s| ==> EhDigito(s[i])
  {
    if s == [] then true else EhDigito(s[0]) && TodosDigitos(s[1..])
  }

  /** `str.isdigit` on decimal digits: a non-empty string of digits only. */
  function SoDigitos(s: string): (b: bool)
    ensures b <==> |s| > 0 && forall i :: 0 <= i < |s| ==> EhDigito(s[i])
  {
    |s| > 0 && TodosDigitos(s)
  }

  /** The check in `criar_cliente`: a CPF is accepted when it is made of
      digits only and has exactly 11 of them. */
  function CpfValido(cpf: string): (b: bool)
    ensures b <==> |cpf| == 11 && forall i :: 0 <= i < |cpf| ==> EhDigito(cpf[i])
  {
    SoDigitos(cpf) && |cpf| == 11
  }
}
