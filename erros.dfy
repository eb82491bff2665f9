/** The validation errors and error messages the controllers produce, word for word. */
module Erros {
  import opened Web
  import opened Entities

  // Time entries (LancamentoController)

  const FuncionarioNaoInformado := ObjectError("Funcionário", "Funcionário não informado.")
  const FuncionarioNaoEncontrado := ObjectError("Funcionário", "Funcionário não encontrado. ID inexistente.")
  const LancamentoNaoEncontrado := ObjectError("Lançamento", "Lançamento nao encontrado.")
  const TipoInvalido := ObjectError("Tipo", "Tipo inválido.")

  function LancamentoNaoEncontradoParaId(id: Id): string {
    "Lancamento não encontrado para o id  " + IntToString(id)
  }

  function RegistroNaoEncontradoAoRemover(id: Id): string {
    "Erro ao remover lançamento. Registro não encontrado para o id " + IntToString(id)
  }

  // Sign-up (CadastroPFController, CadastroPJController)

  function EmpresaNaoEncontrada(cnpj: string): ObjectError {
    ObjectError("Empresa", "Empresa com CNPJ: " + cnpj + ", não encontrada.")
  }

  function EmpresaExistente(razaoSocial: string): ObjectError {
    ObjectError("Empresa", "Empresa " + razaoSocial + " já existente.")
  }

  function CpfExistente(cpf: string): ObjectError {
    ObjectError("Funcionario", "Funcionario com CPF " + cpf + " já existente.")
  }

  function EmailExistente(email: string): ObjectError {
    ObjectError("Funcionário", "Funcionario com Email " + email + " já existente.")
  }

  // Company lookup (EmpresaController)

  function EmpresaNaoEncontradaParaCnpj(cnpj: string): string {
    "Empresa não encontrada para o CNPJ " + cnpj
  }
}
