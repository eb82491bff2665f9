/**
 * `CadastroPFController`: sign-up of an employee (pessoa física) under a
 * company that already exists. Three independent checks run, the DTO is
 * converted (role fixed to user, password hashed, optional numbers copied only
 * when present), and then the call either rejects with every message or links
 * the employee to the company, stores it and echoes it back without password.
 */
module CadastroPF {
  import opened Wrappers
  import opened Entities
  import opened Web
  import opened Erros
  import opened Persistence

  /** `CadastroPFDto`, the wire form of a PF sign-up. */
  datatype CadastroPFDto = CadastroPFDto(
    id: Option<Id>,
    nome: string,
    email: string,
    senha: Option<string>,
    cpf: string,
    valorHora: Option<Decimal>,
    qtdHorasTrabalhaDia: Option<Decimal>,
    qtdHorasAlmoco: Option<Decimal>,
    cnpj: string)

  /** The position of each existence-check error in the order the checks run: company, CPF, email. */
  function Posicao(dto: CadastroPFDto, e: ObjectError): (p: nat) {
    if e == EmpresaNaoEncontrada(dto.cnpj) then 0
    else if e == CpfExistente(dto.cpf) then 1
    else if e == EmailExistente(dto.email) then 2
    else 3
  }

  /**
   * The errors `validarDadosExistentes` adds: company missing, CPF taken,
   * email taken, each checked whatever the others found, in that order.
   */
  function ErrosDadosExistentes(empresas: map<string, EmpresaRow>, funcionarios: map<Id, Funcionario>,
                                dto: CadastroPFDto): (r: seq<ObjectError>)
    ensures |r| <= 3
    ensures forall i :: 0 <= i < |r| ==> Posicao(dto, r[i]) < 3
    ensures forall i, j :: 0 <= i < j < |r| ==> Posicao(dto, r[i]) < Posicao(dto, r[j])
    ensures EmpresaNaoEncontrada(dto.cnpj) in r <==> dto.cnpj !in empresas
    ensures CpfExistente(dto.cpf) in r <==> CpfCadastrado(funcionarios, dto.cpf)
    ensures EmailExistente(dto.email) in r <==> EmailCadastrado(funcionarios, dto.email)
    ensures r == [] <==>
      dto.cnpj in empresas && !CpfCadastrado(funcionarios, dto.cpf) && !EmailCadastrado(funcionarios, dto.email)
  {
    (if dto.cnpj in empresas then [] else [EmpresaNaoEncontrada(dto.cnpj)])
    + (if CpfCadastrado(funcionarios, dto.cpf) then [CpfExistente(dto.cpf)] else [])
    + (if EmailCadastrado(funcionarios, dto.email) then [EmailExistente(dto.email)] else [])
  }

  /** When all three checks fail the errors come as company, CPF, email. */
  lemma ErrosNaOrdem(empresas: map<string, EmpresaRow>, funcionarios: map<Id, Funcionario>, dto: CadastroPFDto)
    requires dto.cnpj !in empresas
    requires CpfCadastrado(funcionarios, dto.cpf) && EmailCadastrado(funcionarios, dto.email)
    ensures ErrosDadosExistentes(empresas, funcionarios, dto)
      == [EmpresaNaoEncontrada(dto.cnpj), CpfExistente(dto.cpf), EmailExistente(dto.email)]
  {
  }

  /**
   * `converterDtoParaFuncionario`: an ordinary user whose password is the
   * hash of the one sent, not yet stored nor linked; the optional numbers are
   * present exactly when the DTO has them. Its `BindingResult` parameter is
   * never used, so it adds no error.
   */
  function ConverterDtoParaFuncionario(dto: CadastroPFDto, hash: PasswordHasher): (f: Funcionario)
    ensures f.nome == dto.nome && f.email == dto.email && f.cpf == dto.cpf
    ensures f.perfil == RoleUsuario && f.senha == hash(dto.senha)
    ensures f.valorHora == dto.valorHora && f.qtdHorasTrabalhoDia == dto.qtdHorasTrabalhaDia
    ensures f.qtdHorasAlmoco == dto.qtdHorasAlmoco
    ensures f.id.None? && f.empresa.None?
    ensures f.valorHora.Some? <==> dto.valorHora.Some?
    ensures f.qtdHorasTrabalhoDia.Some? <==> dto.qtdHorasTrabalhaDia.Some?
    ensures f.qtdHorasAlmoco.Some? <==> dto.qtdHorasAlmoco.Some?
  {
    Funcionario(None, dto.nome, dto.email, dto.cpf, hash(dto.senha), RoleUsuario,
                dto.valorHora, dto.qtdHorasTrabalhaDia, dto.qtdHorasAlmoco, None)
  }

  /**
   * `converterCadastroPFDto`: the wire form of a linked employee (the source
   * dereferences its company). It never carries a password, and each optional
   * number is present exactly when the employee has it.
   */
  function ConverterCadastroPFDto(f: Funcionario): (d: CadastroPFDto)
    requires f.empresa.Some?
    ensures d.id == f.id && d.nome == f.nome && d.email == f.email && d.cpf == f.cpf
    ensures d.senha.None?
    ensures d.cnpj == f.empresa.value.cnpj
    ensures d.valorHora == f.valorHora && d.qtdHorasTrabalhaDia == f.qtdHorasTrabalhoDia
    ensures d.qtdHorasAlmoco == f.qtdHorasAlmoco
    ensures d.valorHora.Some? <==> f.valorHora.Some?
    ensures d.qtdHorasTrabalhaDia.Some? <==> f.qtdHorasTrabalhoDia.Some?
    ensures d.qtdHorasAlmoco.Some? <==> f.qtdHorasAlmoco.Some?
  {
    CadastroPFDto(f.id, f.nome, f.email, None, f.cpf,
                  f.valorHora, f.qtdHorasTrabalhoDia, f.qtdHorasAlmoco, f.empresa.value.cnpj)
  }

  /** The employee a successful sign-up stores: converted, given the next id, linked to the DTO's company. */
  function Cadastrado(empresas: map<string, EmpresaRow>, nextId: Id, dto: CadastroPFDto, hash: PasswordHasher): (f: Funcionario)
    requires dto.cnpj in empresas
  {
    ConverterDtoParaFuncionario(dto, hash).(id := Some(nextId), empresa := Some(empresas[dto.cnpj]))
  }

  /**
   * Converting a sign-up and converting the stored employee back gives the
   * DTO again, with the generated id and without the password. The optional
   * numbers come back exactly when they were sent; their text goes through
   * `Float`/`BigDecimal` and back, so only their presence is stated.
   */
  lemma CadastroIdaEVolta(empresas: map<string, EmpresaRow>, nextId: Id, dto: CadastroPFDto, hash: PasswordHasher)
    requires dto.cnpj in empresas && empresas[dto.cnpj].cnpj == dto.cnpj
    ensures var d := ConverterCadastroPFDto(Cadastrado(empresas, nextId, dto, hash));
      && d.id == Some(nextId) && d.senha.None?
      && d.nome == dto.nome && d.email == dto.email && d.cpf == dto.cpf && d.cnpj == dto.cnpj
      && (d.valorHora.Some? <==> dto.valorHora.Some?)
      && (d.qtdHorasTrabalhaDia.Some? <==> dto.qtdHorasTrabalhaDia.Some?)
      && (d.qtdHorasAlmoco.Some? <==> dto.qtdHorasAlmoco.Some?)
  {
  }

  class CadastroPFController {
    const db: Database
    const hash: PasswordHasher

    constructor (db: Database, hash: PasswordHasher)
      ensures this.db == db && this.hash == hash
    {
      this.db := db;
      this.hash := hash;
    }

    /** `validarDadosExistentes`: appends the existence-check errors. */
    method ValidarDadosExistentes(dto: CadastroPFDto, result: BindingResult)
      modifies result
      ensures result.errors == old(result.errors) + ErrosDadosExistentes(db.empresas, db.funcionarios, dto)
    {
      var empresa := db.BuscarEmpresaPorCnpj(dto.cnpj);
      if empresa.None? {
        result.AddError(EmpresaNaoEncontrada(dto.cnpj));
      }
      if CpfCadastrado(db.funcionarios, dto.cpf) {
        result.AddError(CpfExistente(dto.cpf));
      }
      if EmailCadastrado(db.funcionarios, dto.email) {
        result.AddError(EmailExistente(dto.email));
      }
    }

    /**
     * `cadastrar` (POST): with any error (bean validation's included) nothing
     * is stored and the messages come back in order; otherwise exactly one
     * employee is stored, linked to the company with the DTO's CNPJ.
     */
    method Cadastrar(dto: CadastroPFDto, result: BindingResult) returns (r: Response<CadastroPFDto>)
      requires db.Valid()
      modifies db, result
      ensures db.Valid()
      ensures db.empresas == old(db.empresas) && db.lancamentos == old(db.lancamentos)
      ensures var erros := old(result.errors) + ErrosDadosExistentes(old(db.empresas), old(db.funcionarios), dto);
        && result.errors == erros
        && (erros != [] ==>
              r == Rejected(Messages(erros)) && db.funcionarios == old(db.funcionarios) && db.nextId == old(db.nextId))
        && (erros == [] ==>
              var saved := Cadastrado(old(db.empresas), old(db.nextId), dto, hash);
              && old(db.nextId) !in old(db.funcionarios)
              && db.funcionarios == old(db.funcionarios)[old(db.nextId) := saved]
              && db.nextId == old(db.nextId) + 1
              && r == Accepted(ConverterCadastroPFDto(saved))
              && r.data.cnpj == dto.cnpj && r.data.senha.None?)
    {
      ValidarDadosExistentes(dto, result);
      var funcionario := ConverterDtoParaFuncionario(dto, hash);
      if result.HasErrors() {
        var messages := CopyMessages(result.errors);
        return Rejected(messages);
      }
      var empresa := db.BuscarEmpresaPorCnpj(dto.cnpj);
      if empresa.Some? {
        funcionario := funcionario.(empresa := empresa);
      }
      var saved := db.PersistirFuncionario(funcionario);
      r := Accepted(ConverterCadastroPFDto(saved));
    }
  }
}
