/**
 * `CadastroPJController`: sign-up of a company (pessoa jurídica) together
 * with its administrator. The company must not exist yet; CPF and email must
 * be free. On success the company is stored first (stamped by `@PrePersist`),
 * then the administrator is linked to it and stored.
 */
module CadastroPJ {
  import opened Wrappers
  import opened Entities
  import opened Web
  import opened Erros
  import opened Persistence

  /** `CadastroPJDto`, the wire form of a PJ sign-up. */
  datatype CadastroPJDto = CadastroPJDto(
    id: Option<Id>,
    nome: string,
    email: string,
    senha: Option<string>,
    cpf: string,
    cnpj: string,
    razaoSocial: string)

  /** The position of each existence-check error in the order the checks run: company, CPF, email. */
  function Posicao(dto: CadastroPJDto, e: ObjectError): (p: nat) {
    if e == EmpresaExistente(dto.razaoSocial) then 0
    else if e == CpfExistente(dto.cpf) then 1
    else if e == EmailExistente(dto.email) then 2
    else 3
  }

  /**
   * The errors `validaDadosExistentes` adds: company already stored, CPF
   * taken, email taken, each checked whatever the others found, in that order.
   */
  function ErrosDadosExistentes(empresas: map<string, EmpresaRow>, funcionarios: map<Id, Funcionario>,
                                dto: CadastroPJDto): (r: seq<ObjectError>)
    ensures |r| <= 3
    ensures forall i :: 0 <= i < |r| ==> Posicao(dto, r[i]) < 3
    ensures forall i, j :: 0 <= i < j < |r| ==> Posicao(dto, r[i]) < Posicao(dto, r[j])
    ensures EmpresaExistente(dto.razaoSocial) in r <==> dto.cnpj in empresas
    ensures CpfExistente(dto.cpf) in r <==> CpfCadastrado(funcionarios, dto.cpf)
    ensures EmailExistente(dto.email) in r <==> EmailCadastrado(funcionarios, dto.email)
    ensures r == [] <==>
      dto.cnpj !in empresas && !CpfCadastrado(funcionarios, dto.cpf) && !EmailCadastrado(funcionarios, dto.email)
  {
    (if dto.cnpj in empresas then [EmpresaExistente(dto.razaoSocial)] else [])
    + (if CpfCadastrado(funcionarios, dto.cpf) then [CpfExistente(dto.cpf)] else [])
    + (if EmailCadastrado(funcionarios, dto.email) then [EmailExistente(dto.email)] else [])
  }

  /** When all three checks fail the errors come as company, CPF, email. */
  lemma ErrosNaOrdem(empresas: map<string, EmpresaRow>, funcionarios: map<Id, Funcionario>, dto: CadastroPJDto)
    requires dto.cnpj in empresas
    requires CpfCadastrado(funcionarios, dto.cpf) && EmailCadastrado(funcionarios, dto.email)
    ensures ErrosDadosExistentes(empresas, funcionarios, dto)
      == [EmpresaExistente(dto.razaoSocial), CpfExistente(dto.cpf), EmailExistente(dto.email)]
  {
  }

  /** `converterDtoParaEmpresa`: a new company with the DTO's CNPJ and legal name and nothing else set. */
  method ConverterDtoParaEmpresa(dto: CadastroPJDto) returns (e: Empresa)
    ensures fresh(e)
    ensures e.Row() == EmpresaRow(None, dto.razaoSocial, dto.cnpj, None, None) && e.funcionarios == []
  {
    e := new Empresa();
    e.SetCnpj(dto.cnpj);
    e.SetRazaoSocial(dto.razaoSocial);
  }

  /**
   * `converterDtoParaFuncionario`: an administrator whose password is the
   * hash of the one sent, with no optional numbers, not yet stored nor
   * linked. Its `BindingResult` parameter is never used, so it adds no error.
   */
  function ConverterDtoParaFuncionario(dto: CadastroPJDto, hash: PasswordHasher): (f: Funcionario)
    ensures f.nome == dto.nome && f.email == dto.email && f.cpf == dto.cpf
    ensures f.perfil == RoleAdmin && f.senha == hash(dto.senha)
    ensures f.id.None? && f.empresa.None?
    ensures f.valorHora.None? && f.qtdHorasTrabalhoDia.None? && f.qtdHorasAlmoco.None?
  {
    Funcionario(None, dto.nome, dto.email, dto.cpf, hash(dto.senha), RoleAdmin, None, None, None, None)
  }

  /**
   * `converterCadastroPJDto`: the wire form of a linked administrator, whose
   * CNPJ and legal name are read from its company; it never carries a password.
   */
  function ConverterCadastroPJDto(f: Funcionario): (d: CadastroPJDto)
    requires f.empresa.Some?
    ensures d.id == f.id && d.nome == f.nome && d.email == f.email && d.cpf == f.cpf
    ensures d.senha.None?
    ensures d.cnpj == f.empresa.value.cnpj && d.razaoSocial == f.empresa.value.razaoSocial
  {
    CadastroPJDto(f.id, f.nome, f.email, None, f.cpf, f.empresa.value.cnpj, f.empresa.value.razaoSocial)
  }

  /** The company a successful sign-up stores: the DTO's, with the next id, stamped `agora`. */
  function EmpresaCadastrada(nextId: Id, dto: CadastroPJDto, agora: Date): (e: EmpresaRow) {
    EmpresaRow(Some(nextId), dto.razaoSocial, dto.cnpj, Some(agora), Some(agora))
  }

  /** The administrator a successful sign-up stores: the id after the company's, linked to it. */
  function AdminCadastrado(nextId: Id, dto: CadastroPJDto, hash: PasswordHasher, agora: Date): (f: Funcionario) {
    ConverterDtoParaFuncionario(dto, hash).(id := Some(nextId + 1), empresa := Some(EmpresaCadastrada(nextId, dto, agora)))
  }

  /**
   * Converting a sign-up and converting the stored administrator back gives
   * the DTO again, with the generated id and without the password.
   */
  lemma CadastroIdaEVolta(nextId: Id, dto: CadastroPJDto, hash: PasswordHasher, agora: Date)
    ensures ConverterCadastroPJDto(AdminCadastrado(nextId, dto, hash, agora))
      == dto.(id := Some(nextId + 1), senha := None)
  {
  }

  class CadastroPJController {
    const db: Database
    const hash: PasswordHasher

    constructor (db: Database, hash: PasswordHasher)
      ensures this.db == db && this.hash == hash
    {
      this.db := db;
      this.hash := hash;
    }

    /** `validaDadosExistentes`: appends the existence-check errors. */
    method ValidaDadosExistentes(dto: CadastroPJDto, result: BindingResult)
      modifies result
      ensures result.errors == old(result.errors) + ErrosDadosExistentes(db.empresas, db.funcionarios, dto)
    {
      var empresa := db.BuscarEmpresaPorCnpj(dto.cnpj);
      if empresa.Some? {
        result.AddError(EmpresaExistente(dto.razaoSocial));
      }
      if CpfCadastrado(db.funcionarios, dto.cpf) {
        result.AddError(CpfExistente(dto.cpf));
      }
      if EmailCadastrado(db.funcionarios, dto.email) {
        result.AddError(EmailExistente(dto.email));
      }
    }

    /**
     * The success path of `cadastrar`: store the company, link the
     * administrator to the stored company, store the administrator.
     */
    method PersistirEmpresaEAdmin(dto: CadastroPJDto, empresa: Empresa, funcionario: Funcionario, agora: Date)
      returns (saved: Funcionario)
      requires db.Valid()
      requires empresa.Row() == EmpresaRow(None, dto.razaoSocial, dto.cnpj, None, None)
      requires funcionario == ConverterDtoParaFuncionario(dto, hash)
      requires ErrosDadosExistentes(db.empresas, db.funcionarios, dto) == []
      modifies db, empresa
      ensures db.Valid()
      ensures var n := old(db.nextId);
        && n + 1 !in old(db.funcionarios)
        && saved == AdminCadastrado(n, dto, hash, agora)
        && db.empresas == old(db.empresas)[dto.cnpj := EmpresaCadastrada(n, dto, agora)]
        && db.funcionarios == old(db.funcionarios)[n + 1 := saved]
        && db.lancamentos == old(db.lancamentos)
        && db.nextId == n + 2
      ensures empresa.Row() == EmpresaCadastrada(old(db.nextId), dto, agora)
      ensures empresa.funcionarios == old(empresa.funcionarios)
    {
      ghost var n := db.nextId;
      db.PersistirEmpresa(empresa, agora);
      assert empresa.Row() == EmpresaCadastrada(n, dto, agora);
      var vinculado := funcionario.(empresa := Some(empresa.Row()));
      assert vinculado == funcionario.(empresa := Some(EmpresaCadastrada(n, dto, agora)));
      saved := db.PersistirFuncionario(vinculado);
      assert saved == vinculado.(id := Some(n + 1));
    }

    /**
     * `cadastrar` (POST), with `agora` the clock reading `@PrePersist` takes:
     * with any error neither store changes and the messages come back in
     * order; otherwise each store gains exactly one entry, the company first.
     */
    method Cadastrar(dto: CadastroPJDto, result: BindingResult, agora: Date) returns (r: Response<CadastroPJDto>)
      requires db.Valid()
      modifies db, result
      ensures db.Valid()
      ensures db.lancamentos == old(db.lancamentos)
      ensures var erros := old(result.errors) + ErrosDadosExistentes(old(db.empresas), old(db.funcionarios), dto);
        && result.errors == erros
        && (erros != [] ==>
              && r == Rejected(Messages(erros))
              && db.empresas == old(db.empresas) && db.funcionarios == old(db.funcionarios)
              && db.nextId == old(db.nextId))
        && (erros == [] ==>
              var n := old(db.nextId);
              && dto.cnpj !in old(db.empresas) && n + 1 !in old(db.funcionarios)
              && db.empresas == old(db.empresas)[dto.cnpj := EmpresaCadastrada(n, dto, agora)]
              && db.funcionarios == old(db.funcionarios)[n + 1 := AdminCadastrado(n, dto, hash, agora)]
              && db.nextId == n + 2
              && r == Accepted(ConverterCadastroPJDto(AdminCadastrado(n, dto, hash, agora)))
              && r.data.cnpj == dto.cnpj && r.data.razaoSocial == dto.razaoSocial)
    {
      ValidaDadosExistentes(dto, result);
      var empresa := ConverterDtoParaEmpresa(dto);
      var funcionario := ConverterDtoParaFuncionario(dto, hash);
      if result.HasErrors() {
        var messages := CopyMessages(result.errors);
        return Rejected(messages);
      }
      var saved := PersistirEmpresaEAdmin(dto, empresa, funcionario, agora);
      r := Accepted(ConverterCadastroPJDto(saved));
    }
  }

  /**
   * Sending the same PJ sign-up twice: the first is accepted, the second is
   * rejected with all three existence errors, since company, CPF and email
   * are now all taken.
   */
  method CadastroRepetido(dto: CadastroPJDto, hash: PasswordHasher, agora: Date)
    returns (primeiro: Response<CadastroPJDto>, segundo: Response<CadastroPJDto>)
    ensures primeiro == Accepted(dto.(id := Some(2), senha := None))
    ensures segundo == Rejected([
      "Empresa " + dto.razaoSocial + " já existente.",
      "Funcionario com CPF " + dto.cpf + " já existente.",
      "Funcionario com Email " + dto.email + " já existente."])
  {
    var db := new Database();
    var controller := new CadastroPJController(db, hash);
    var result := new BindingResult([]);
    primeiro := controller.Cadastrar(dto, result, agora);
    CadastroIdaEVolta(1, dto, hash, agora);
    ghost var empresas, funcionarios := db.empresas, db.funcionarios;
    assert funcionarios[2].cpf == dto.cpf && funcionarios[2].email == dto.email;
    assert CpfCadastrado(funcionarios, dto.cpf) && EmailCadastrado(funcionarios, dto.email);
    ErrosNaOrdem(empresas, funcionarios, dto);
    ghost var erros := [EmpresaExistente(dto.razaoSocial), CpfExistente(dto.cpf), EmailExistente(dto.email)];
    assert Messages(erros) == [erros[0].defaultMessage, erros[1].defaultMessage, erros[2].defaultMessage];
    var outro := new BindingResult([]);
    segundo := controller.Cadastrar(dto, outro, agora);
  }
}
