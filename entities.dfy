/**
 * The domain records of the time-tracking backend: roles, entry kinds,
 * employees (Funcionario), time entries (Lancamento) and companies (Empresa).
 *
 * Employees and time entries are rows: values that the controllers build and
 * the stores keep. A company is also an object whose setters and JPA
 * lifecycle hooks update its fields in place, so it is a class; `Row()` is the
 * value a store keeps of it.
 */
module Entities {
  import opened Wrappers

  /** Database identifiers (Java `Long`). */
  type Id = int

  /** `java.util.Date`, as milliseconds since the epoch. */
  type Date = int

  /** A `Float` or `BigDecimal` field, carried as the opaque text it was given as. */
  type Decimal = string

  /** `PerfilEnum`: the role an employee is created with. */
  datatype Perfil = RoleAdmin | RoleUsuario

  /** `TipoEnum`: the kind of a time entry. */
  datatype TipoEnum =
    | InicioTrabalho
    | InicioAlmoco
    | TerminoAlmoco
    | InicioPausa
    | TerminoPausa
    | TerminoTrabalho

  /** The member's Java name, which is what `toString()` returns. */
  function TipoName(t: TipoEnum): (nome: string) {
    match t
    case InicioTrabalho => "INICIO_TRABALHO"
    case InicioAlmoco => "INICIO_ALMOCO"
    case TerminoAlmoco => "TERMINO_ALMOCO"
    case InicioPausa => "INICIO_PAUSA"
    case TerminoPausa => "TERMINO_PAUSA"
    case TerminoTrabalho => "TERMINO_TRABALHO"
  }

  /**
   * `EnumUtils.isValidEnum(TipoEnum.class, s)` followed by `TipoEnum.valueOf(s)`:
   * a member is found exactly when `s` is its name, with the same case.
   */
  function ParseTipo(s: string): (r: Option<TipoEnum>)
    ensures r.Some? ==> TipoName(r.value) == s
    ensures r.None? ==> forall t :: TipoName(t) != s
  {
    if s == "INICIO_TRABALHO" then Some(InicioTrabalho)
    else if s == "INICIO_ALMOCO" then Some(InicioAlmoco)
    else if s == "TERMINO_ALMOCO" then Some(TerminoAlmoco)
    else if s == "INICIO_PAUSA" then Some(InicioPausa)
    else if s == "TERMINO_PAUSA" then Some(TerminoPausa)
    else if s == "TERMINO_TRABALHO" then Some(TerminoTrabalho)
    else None
  }

  /** Every member is recognised by its own name and by no other. */
  lemma ParseTipoName(t: TipoEnum)
    ensures ParseTipo(TipoName(t)) == Some(t)
  {
  }

  /** Distinct members have distinct names, so `toString()` loses nothing. */
  lemma TipoNameInjective(t: TipoEnum, u: TipoEnum)
    requires TipoName(t) == TipoName(u)
    ensures t == u
  {
    ParseTipoName(t);
    ParseTipoName(u);
  }

  /** What a store keeps of a company (the employee list is the employees' side of the relation). */
  datatype EmpresaRow = EmpresaRow(
    id: Option<Id>,
    razaoSocial: string,
    cnpj: string,
    dataCriacao: Option<Date>,
    dataAtualizacao: Option<Date>)

  /** An employee; `empresa` is the company it is linked to, if any. */
  datatype Funcionario = Funcionario(
    id: Option<Id>,
    nome: string,
    email: string,
    cpf: string,
    senha: Option<string>,
    perfil: Perfil,
    valorHora: Option<Decimal>,
    qtdHorasTrabalhoDia: Option<Decimal>,
    qtdHorasAlmoco: Option<Decimal>,
    empresa: Option<EmpresaRow>)

  /** A time entry; `funcionario` is the id of the employee it belongs to. */
  datatype Lancamento = Lancamento(
    id: Option<Id>,
    data: Option<Date>,
    descricao: string,
    localizacao: string,
    tipo: Option<TipoEnum>,
    funcionario: Option<Id>)

  /** `new Lancamento()`: every field unset. */
  const NovoLancamento := Lancamento(None, None, "", "", None, None)

  /** The company entity, with its setters and its `@PrePersist`/`@PreUpdate` hooks. */
  class Empresa {
    var id: Option<Id>
    var razaoSocial: string
    var cnpj: string
    var dataCriacao: Option<Date>
    var dataAtualizacao: Option<Date>
    var funcionarios: seq<Funcionario>

    /** `new Empresa()`: nothing set yet. */
    constructor ()
      ensures id == None && razaoSocial == "" && cnpj == ""
      ensures dataCriacao == None && dataAtualizacao == None && funcionarios == []
    {
      id, razaoSocial, cnpj := None, "", "";
      dataCriacao, dataAtualizacao := None, None;
      funcionarios := [];
    }

    /** The company's current field values. */
    function Row(): EmpresaRow
      reads this
    {
      EmpresaRow(id, razaoSocial, cnpj, dataCriacao, dataAtualizacao)
    }

    method SetId(id: Option<Id>)
      modifies this`id
      ensures this.id == id
    {
      this.id := id;
    }

    method SetRazaoSocial(razaoSocial: string)
      modifies this`razaoSocial
      ensures this.razaoSocial == razaoSocial
    {
      this.razaoSocial := razaoSocial;
    }

    method SetCnpj(cnpj: string)
      modifies this`cnpj
      ensures this.cnpj == cnpj
    {
      this.cnpj := cnpj;
    }

    method SetDataCriacao(dataCriacao: Option<Date>)
      modifies this`dataCriacao
      ensures this.dataCriacao == dataCriacao
    {
      this.dataCriacao := dataCriacao;
    }

    method SetDataAtualizacao(dataAtualizacao: Option<Date>)
      modifies this`dataAtualizacao
      ensures this.dataAtualizacao == dataAtualizacao
    {
      this.dataAtualizacao := dataAtualizacao;
    }

    method SetFuncionarios(funcionarios: seq<Funcionario>)
      modifies this`funcionarios
      ensures this.funcionarios == funcionarios
    {
      this.funcionarios := funcionarios;
    }

    /** `@PreUpdate`: the update time becomes `agora` (the clock reading); the creation time stays. */
    method PreUpdate(agora: Date)
      modifies this`dataAtualizacao
      ensures dataAtualizacao == Some(agora)
    {
      dataAtualizacao := Some(agora);
    }

    /** `@PrePersist`: creation and update time both become the one clock reading `agora`. */
    method PrePersist(agora: Date)
      modifies this`dataCriacao, this`dataAtualizacao
      ensures dataCriacao == Some(agora) && dataAtualizacao == Some(agora)
    {
      dataCriacao := Some(agora);
      dataAtualizacao := Some(agora);
    }
  }

  /**
   * A company persisted at `criado` and updated at `atualizado`: its creation
   * time is the first reading and its update time the last, and the hooks
   * leave its other fields as the setters made them.
   */
  method PersistThenUpdate(cnpj: string, razaoSocial: string, criado: Date, atualizado: Date)
    returns (r: EmpresaRow)
    ensures r == EmpresaRow(None, razaoSocial, cnpj, Some(criado), Some(atualizado))
  {
    var e := new Empresa();
    e.SetCnpj(cnpj);
    e.SetRazaoSocial(razaoSocial);
    e.PrePersist(criado);
    e.PreUpdate(atualizado);
    r := e.Row();
  }
}
