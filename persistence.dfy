/**
 * The stores behind `EmpresaService`, `FuncionarioService` and
 * `LancamentoService`: companies by CNPJ, employees and time entries by id.
 * Every generated id is assumed to come from one sequence shared by the
 * three stores, as `GenerationType.AUTO` gives with a single Hibernate
 * sequence.
 */
module Persistence {
  import opened Wrappers
  import opened Entities

  /** `buscarPorCpf(cpf).isPresent()`. */
  predicate CpfCadastrado(funcionarios: map<Id, Funcionario>, cpf: string) {
    exists i :: i in funcionarios && funcionarios[i].cpf == cpf
  }

  /** `buscarPorEmail(email).isPresent()`. */
  predicate EmailCadastrado(funcionarios: map<Id, Funcionario>, email: string) {
    exists i :: i in funcionarios && funcionarios[i].email == email
  }

  /**
   * Storing an employee under a new key makes its CPF and email taken, and
   * leaves every other CPF and email as taken or free as it was.
   */
  lemma GravarOcupaCpfEEmail(funcionarios: map<Id, Funcionario>, k: Id, f: Funcionario, cpf: string, email: string)
    requires k !in funcionarios
    ensures CpfCadastrado(funcionarios[k := f], cpf) <==> CpfCadastrado(funcionarios, cpf) || cpf == f.cpf
    ensures EmailCadastrado(funcionarios[k := f], email) <==> EmailCadastrado(funcionarios, email) || email == f.email
  {
    var novo := funcionarios[k := f];
    if CpfCadastrado(funcionarios, cpf) {
      var i :| i in funcionarios && funcionarios[i].cpf == cpf;
      assert i in novo && novo[i].cpf == cpf;
    }
    if EmailCadastrado(funcionarios, email) {
      var i :| i in funcionarios && funcionarios[i].email == email;
      assert i in novo && novo[i].email == email;
    }
    assert k in novo && novo[k] == f;
  }

  /** A stored company: reached by its own CNPJ, given an id, stamped by `@PrePersist`. */
  ghost predicate EmpresaGuardada(e: EmpresaRow, cnpj: string, nextId: Id) {
    && e.cnpj == cnpj
    && e.id.Some? && e.id.value < nextId
    && e.dataCriacao.Some? && e.dataAtualizacao.Some?
  }

  /** A stored employee: stored under its own id and linked to a stored company. */
  ghost predicate FuncionarioGuardado(f: Funcionario, id: Id, nextId: Id, empresas: map<string, EmpresaRow>) {
    && f.id == Some(id) && id < nextId
    && f.empresa.Some?
    && f.empresa.value.cnpj in empresas
    && empresas[f.empresa.value.cnpj] == f.empresa.value
  }

  /** A stored time entry: stored under its own id, dated, typed, and owned by a stored employee. */
  ghost predicate LancamentoGuardado(l: Lancamento, id: Id, nextId: Id, funcionarios: map<Id, Funcionario>) {
    && l.id == Some(id) && id < nextId
    && l.data.Some? && l.tipo.Some?
    && l.funcionario.Some? && l.funcionario.value in funcionarios
  }

  /**
   * The record `save(l)` writes: an entry whose id is stored replaces it,
   * any other entry is inserted under the next generated id.
   */
  function Gravado(lancamentos: map<Id, Lancamento>, nextId: Id, l: Lancamento): (g: Lancamento)
    ensures g.id.Some? && g.(id := l.id) == l
    ensures l.id.Some? && l.id.value in lancamentos ==> g.id == l.id
    ensures (forall i :: i in lancamentos ==> i < nextId) ==>
      (g.id.value in lancamentos <==> l.id.Some? && l.id.value in lancamentos)
  {
    if l.id.Some? && l.id.value in lancamentos then l else l.(id := Some(nextId))
  }

  class Database {
    var empresas: map<string, EmpresaRow>
    var funcionarios: map<Id, Funcionario>
    var lancamentos: map<Id, Lancamento>
    var nextId: Id

    /**
     * The stores' integrity: every row is complete and stored under its own
     * key, CPF and email are each unique among employees, every employee is
     * linked to a stored company and every time entry to a stored employee.
     */
    ghost predicate Valid()
      reads this
    {
      && 1 <= nextId
      && (forall c :: c in empresas ==> EmpresaGuardada(empresas[c], c, nextId))
      && (forall i :: i in funcionarios ==> FuncionarioGuardado(funcionarios[i], i, nextId, empresas))
      && (forall i, j :: i in funcionarios && j in funcionarios && funcionarios[i].cpf == funcionarios[j].cpf ==> i == j)
      && (forall i, j :: i in funcionarios && j in funcionarios && funcionarios[i].email == funcionarios[j].email ==> i == j)
      && (forall i :: i in lancamentos ==> LancamentoGuardado(lancamentos[i], i, nextId, funcionarios))
    }

    constructor ()
      ensures Valid()
      ensures empresas == map[] && funcionarios == map[] && lancamentos == map[] && nextId == 1
    {
      empresas, funcionarios, lancamentos := map[], map[], map[];
      nextId := 1;
    }

    /** `EmpresaService.buscarPorCnpj`. */
    function BuscarEmpresaPorCnpj(cnpj: string): (r: Option<EmpresaRow>)
      reads this
      ensures r.Some? <==> cnpj in empresas
      ensures r.Some? ==> r.value == empresas[cnpj]
    {
      if cnpj in empresas then Some(empresas[cnpj]) else None
    }

    /** `FuncionarioService.buscarPorId`. */
    function BuscarFuncionarioPorId(id: Id): (r: Option<Funcionario>)
      reads this
      ensures r.Some? <==> id in funcionarios
      ensures r.Some? ==> r.value == funcionarios[id]
    {
      if id in funcionarios then Some(funcionarios[id]) else None
    }

    /** `LancamentoService.buscarPorId`. */
    function BuscarLancamentoPorId(id: Id): (r: Option<Lancamento>)
      reads this
      ensures r.Some? <==> id in lancamentos
      ensures r.Some? ==> r.value == lancamentos[id]
    {
      if id in lancamentos then Some(lancamentos[id]) else None
    }

    /**
     * `EmpresaService.persistir` of a new company: JPA runs `@PrePersist` with
     * the clock reading `agora` and gives the entity the next id, in place.
     */
    method PersistirEmpresa(e: Empresa, agora: Date)
      requires Valid()
      requires e.cnpj !in empresas
      modifies this, e
      ensures Valid()
      ensures e.id == Some(old(nextId))
      ensures e.dataCriacao == Some(agora) && e.dataAtualizacao == Some(agora)
      ensures e.razaoSocial == old(e.razaoSocial) && e.cnpj == old(e.cnpj) && e.funcionarios == old(e.funcionarios)
      ensures empresas == old(empresas)[e.cnpj := e.Row()]
      ensures funcionarios == old(funcionarios) && lancamentos == old(lancamentos)
      ensures nextId == old(nextId) + 1
    {
      e.PrePersist(agora);
      e.SetId(Some(nextId));
      empresas := empresas[e.cnpj := e.Row()];
      nextId := nextId + 1;
    }

    /**
     * `FuncionarioService.persistir` of a new employee: it is stored under the
     * next id. Unique CPF and email and a stored company are what the stores'
     * integrity asks of it.
     */
    method PersistirFuncionario(f: Funcionario) returns (saved: Funcionario)
      requires Valid()
      requires f.id.None?
      requires !CpfCadastrado(funcionarios, f.cpf) && !EmailCadastrado(funcionarios, f.email)
      requires f.empresa.Some? && f.empresa.value.cnpj in empresas && empresas[f.empresa.value.cnpj] == f.empresa.value
      modifies this
      ensures Valid()
      ensures saved == f.(id := Some(old(nextId)))
      ensures funcionarios == old(funcionarios)[old(nextId) := saved]
      ensures empresas == old(empresas) && lancamentos == old(lancamentos)
      ensures nextId == old(nextId) + 1
    {
      saved := f.(id := Some(nextId));
      funcionarios := funcionarios[nextId := saved];
      nextId := nextId + 1;
    }

    /** `LancamentoService.persistir`: writes `Gravado(lancamentos, nextId, l)` and returns it. */
    method PersistirLancamento(l: Lancamento) returns (saved: Lancamento)
      requires Valid()
      requires l.data.Some? && l.tipo.Some?
      requires l.funcionario.Some? && l.funcionario.value in funcionarios
      modifies this
      ensures Valid()
      ensures saved == Gravado(old(lancamentos), old(nextId), l)
      ensures saved.id.Some? && lancamentos == old(lancamentos)[saved.id.value := saved]
      ensures nextId == if l.id.Some? && l.id.value in old(lancamentos) then old(nextId) else old(nextId) + 1
      ensures empresas == old(empresas) && funcionarios == old(funcionarios)
    {
      saved := Gravado(lancamentos, nextId, l);
      if !(l.id.Some? && l.id.value in lancamentos) {
        nextId := nextId + 1;
      }
      lancamentos := lancamentos[saved.id.value := saved];
    }

    /** `LancamentoService.remover`: Spring Data's `deleteById` needs the id to be stored. */
    method RemoverLancamento(id: Id)
      requires Valid()
      requires id in lancamentos
      modifies this
      ensures Valid()
      ensures lancamentos == old(lancamentos) - {id}
      ensures empresas == old(empresas) && funcionarios == old(funcionarios) && nextId == old(nextId)
    {
      lancamentos := lancamentos - {id};
    }
  }
}
