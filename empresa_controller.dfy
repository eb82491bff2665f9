/** `EmpresaController`: look a company up by its CNPJ. */
module Empresas {
  import opened Wrappers
  import opened Entities
  import opened Web
  import opened Erros
  import opened Persistence
  import CadastroPJ

  /** `EmpresaDto`, the wire form of a company. */
  datatype EmpresaDto = EmpresaDto(id: Option<Id>, razaoSocial: string, cnpj: string)

  /** `converterEmpresaDto`: id, CNPJ and legal name, exactly; no timestamps. */
  function ConverterEmpresaDto(e: EmpresaRow): (d: EmpresaDto)
    ensures d.id == e.id && d.cnpj == e.cnpj && d.razaoSocial == e.razaoSocial
  {
    EmpresaDto(e.id, e.razaoSocial, e.cnpj)
  }

  class EmpresaController {
    const db: Database

    constructor (db: Database)
      ensures this.db == db
    {
      this.db := db;
    }

    /**
     * `buscarPorCnpj` (GET /cnpj/{cnpj}), read-only: the stored company's DTO,
     * which carries the CNPJ asked for, or one error naming that CNPJ.
     */
    method BuscarPorCnpj(cnpj: string) returns (r: Response<EmpresaDto>)
      requires db.Valid()
      ensures cnpj in db.empresas ==>
        r == Accepted(ConverterEmpresaDto(db.empresas[cnpj])) && r.data.cnpj == cnpj && r.data.id.Some?
      ensures cnpj !in db.empresas ==> r == Rejected([EmpresaNaoEncontradaParaCnpj(cnpj)])
    {
      var empresa := db.BuscarEmpresaPorCnpj(cnpj);
      if empresa.None? {
        return Rejected([EmpresaNaoEncontradaParaCnpj(cnpj)]);
      }
      r := Accepted(ConverterEmpresaDto(empresa.value));
    }
  }

  /**
   * A company signed up through `CadastroPJController` on empty stores is
   * then found by `buscarPorCnpj` under its CNPJ, with the first generated id.
   */
  method CadastroEntaoBusca(dto: CadastroPJ.CadastroPJDto, hash: PasswordHasher, agora: Date)
    returns (r: Response<EmpresaDto>)
    ensures r == Accepted(EmpresaDto(Some(1), dto.razaoSocial, dto.cnpj))
  {
    var db := new Database();
    var cadastro := new CadastroPJ.CadastroPJController(db, hash);
    var result := new BindingResult([]);
    var _ := cadastro.Cadastrar(dto, result, agora);
    var empresas := new EmpresaController(db);
    r := empresas.BuscarPorCnpj(dto.cnpj);
  }
}
