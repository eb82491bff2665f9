/**
 * `LancamentoController`: create, update, delete and read one time entry.
 *
 * Create and update share one pipeline: check the employee reference, convert
 * the DTO (fetching the stored entry when the DTO names one), then either
 * reject with every accumulated message or persist and map the saved entry
 * back to a DTO. An unparseable date ends the call with `ParseException`
 * before anything is written.
 */
module Lancamentos {
  import opened Wrappers
  import opened Entities
  import opened Web
  import opened Erros
  import opened Persistence

  /** `LancamentoDto`, the wire form of a time entry. */
  datatype LancamentoDto = LancamentoDto(
    id: Option<Id>,
    data: string,
    tipo: string,
    descricao: string,
    localizacao: string,
    funcionarioId: Option<Id>)

  /** The errors `validarFuncionario` adds for `dto`. */
  function ErrosFuncionario(funcionarios: map<Id, Funcionario>, dto: LancamentoDto): (erros: seq<ObjectError>) {
    match dto.funcionarioId
    case None => [FuncionarioNaoInformado]
    case Some(id) => if id in funcionarios then [] else [FuncionarioNaoEncontrado]
  }

  /** A missing employee id gives one error whatever the employee store holds: no lookup is made. */
  lemma FuncionarioNaoInformadoSemConsulta(f1: map<Id, Funcionario>, f2: map<Id, Funcionario>, dto: LancamentoDto)
    requires dto.funcionarioId.None?
    ensures ErrosFuncionario(f1, dto) == ErrosFuncionario(f2, dto) == [FuncionarioNaoInformado]
  {
  }

  /** A given employee id gives no error when the employee is stored and exactly one otherwise. */
  lemma FuncionarioInformado(funcionarios: map<Id, Funcionario>, dto: LancamentoDto)
    requires dto.funcionarioId.Some?
    ensures dto.funcionarioId.value in funcionarios ==> ErrosFuncionario(funcionarios, dto) == []
    ensures dto.funcionarioId.value !in funcionarios ==> ErrosFuncionario(funcionarios, dto) == [FuncionarioNaoEncontrado]
  {
  }

  /** What the converter yields: an entry and the errors it added, or a date that does not parse. */
  datatype Conversao = Convertido(lancamento: Lancamento, erros: seq<ObjectError>) | DataInvalida

  /**
   * `converteLancamentoDtoParaLancamento`. With an id the stored entry is the
   * starting point (or, when it is missing, a fresh entry and an error);
   * without one a fresh entry owned by the DTO's employee. Description and
   * location are always overwritten, the date must parse, and the kind is
   * set only when the text names a member.
   */
  function Converter(lancamentos: map<Id, Lancamento>, dto: LancamentoDto, parse: string -> Option<Date>): (c: Conversao)
    ensures c.DataInvalida? <==> parse(dto.data).None?
    ensures c.Convertido? ==> var l := c.lancamento;
      && l.descricao == dto.descricao && l.localizacao == dto.localizacao
      && l.data == parse(dto.data)
      && (ParseTipo(dto.tipo).Some? ==> l.tipo == ParseTipo(dto.tipo) && TipoInvalido !in c.erros)
      && (ParseTipo(dto.tipo).None? ==> |c.erros| > 0 && c.erros[|c.erros| - 1] == TipoInvalido)
    ensures c.Convertido? && ParseTipo(dto.tipo).None? && (dto.id.None? || dto.id.value !in lancamentos) ==>
      c.lancamento.tipo.None?
    ensures c.Convertido? && dto.id.None? ==>
      c.lancamento.id.None? && c.lancamento.funcionario == dto.funcionarioId && c.erros <= [TipoInvalido]
    ensures c.Convertido? && dto.id.Some? && dto.id.value in lancamentos ==>
      var antigo := lancamentos[dto.id.value];
      && c.lancamento.id == antigo.id && c.lancamento.funcionario == antigo.funcionario
      && (ParseTipo(dto.tipo).None? ==> c.lancamento.tipo == antigo.tipo)
      && c.erros <= [TipoInvalido]
    ensures c.Convertido? && dto.id.Some? && dto.id.value !in lancamentos ==>
      c.lancamento.id.None? && c.lancamento.funcionario.None? && |c.erros| > 0 && c.erros[0] == LancamentoNaoEncontrado
      && c.erros[1..] <= [TipoInvalido]
  {
    var (inicial, errosRegistro) :=
      if dto.id.None? then (NovoLancamento.(funcionario := dto.funcionarioId), [])
      else if dto.id.value in lancamentos then (lancamentos[dto.id.value], [])
      else (NovoLancamento, [LancamentoNaoEncontrado]);
    var l := inicial.(descricao := dto.descricao, localizacao := dto.localizacao);
    match parse(dto.data)
    case None => DataInvalida
    case Some(d) =>
      match ParseTipo(dto.tipo)
      case Some(t) => Convertido(l.(data := Some(d), tipo := Some(t)), errosRegistro)
      case None => Convertido(l.(data := Some(d)), errosRegistro + [TipoInvalido])
  }

  /** Without an id the conversion does not depend on the time-entry store: no lookup is made. */
  lemma CriacaoSemConsulta(l1: map<Id, Lancamento>, l2: map<Id, Lancamento>, dto: LancamentoDto,
                           parse: string -> Option<Date>)
    requires dto.id.None?
    ensures Converter(l1, dto, parse) == Converter(l2, dto, parse)
  {
  }

  /** `converteLancamentoDto`: the wire form of a stored entry (the source dereferences id, date and kind). */
  function ConverteLancamentoDto(l: Lancamento, format: Date -> string): (d: LancamentoDto)
    requires l.id.Some? && l.data.Some? && l.tipo.Some?
    ensures d.id == l.id && d.data == format(l.data.value) && ParseTipo(d.tipo) == l.tipo
    ensures d.descricao == l.descricao && d.localizacao == l.localizacao && d.funcionarioId == l.funcionario
  {
    ParseTipoName(l.tipo.value);
    LancamentoDto(l.id, format(l.data.value), TipoName(l.tipo.value), l.descricao, l.localizacao, l.funcionario)
  }

  /**
   * A stored entry's own DTO converts back to that entry with no error, as
   * long as its date survives formatting (the format drops milliseconds).
   */
  lemma ConverteIdaEVolta(lancamentos: map<Id, Lancamento>, l: Lancamento, fmt: DateFormat)
    requires l.id.Some? && l.data.Some? && l.tipo.Some?
    requires l.id.value in lancamentos && lancamentos[l.id.value] == l
    requires fmt.parse(fmt.format(l.data.value)) == l.data
    ensures Converter(lancamentos, ConverteLancamentoDto(l, fmt.format), fmt.parse) == Convertido(l, [])
  {
    ParseTipoName(l.tipo.value);
  }

  /** The decision of `adicionar`/`atualizar` after validation and conversion. */
  datatype Decisao = FalhaData | Rejeitado(erros: seq<ObjectError>) | Aceito(lancamento: Lancamento)

  /**
   * `previos` are the errors bean validation put in the `BindingResult`. The
   * entry is accepted only when no error at all accumulated; a rejection
   * carries the errors in the order they were added.
   */
  function Decidir(funcionarios: map<Id, Funcionario>, lancamentos: map<Id, Lancamento>,
                   previos: seq<ObjectError>, dto: LancamentoDto, parse: string -> Option<Date>): (d: Decisao)
    ensures d.FalhaData? <==> parse(dto.data).None?
    ensures d.Rejeitado? ==>
      d.erros == previos + ErrosFuncionario(funcionarios, dto) + Converter(lancamentos, dto, parse).erros
      && d.erros != []
    ensures d.Aceito? ==>
      && previos == []
      && dto.funcionarioId.Some? && dto.funcionarioId.value in funcionarios
      && (dto.id.Some? ==> dto.id.value in lancamentos)
      && d.lancamento.data == parse(dto.data)
      && d.lancamento.tipo == ParseTipo(dto.tipo) && d.lancamento.tipo.Some?
      && d.lancamento.descricao == dto.descricao && d.lancamento.localizacao == dto.localizacao
    ensures d.Aceito? && dto.id.None? ==>
      d.lancamento.id.None? && d.lancamento.funcionario == dto.funcionarioId
    ensures d.Aceito? && dto.id.Some? ==>
      d.lancamento.id == lancamentos[dto.id.value].id && d.lancamento.funcionario == lancamentos[dto.id.value].funcionario
  {
    match Converter(lancamentos, dto, parse)
    case DataInvalida => FalhaData
    case Convertido(l, errosConversao) =>
      var erros := previos + ErrosFuncionario(funcionarios, dto) + errosConversao;
      if erros == [] then Aceito(l) else Rejeitado(erros)
  }

  /** What one create or update does: its outcome, and the time-entry store and id sequence after it. */
  datatype Efeito = Efeito(outcome: Outcome<LancamentoDto>, lancamentos: map<Id, Lancamento>, nextId: Id)

  /**
   * The whole of `adicionar`/`atualizar` on the stores' values: a date that
   * does not parse throws, a rejection answers with every message and writes
   * nothing, an acceptance saves the entry and answers with its DTO.
   */
  function Processar(funcionarios: map<Id, Funcionario>, lancamentos: map<Id, Lancamento>, nextId: Id,
                     previos: seq<ObjectError>, dto: LancamentoDto, fmt: DateFormat): (e: Efeito)
    ensures !e.outcome.Responded? || !e.outcome.response.Accepted? ==>
      e.lancamentos == lancamentos && e.nextId == nextId
    ensures e.outcome.ParseException? <==> fmt.parse(dto.data).None?
    ensures e.outcome.Responded? && e.outcome.response.Rejected? ==>
      e.outcome.response.errors ==
        Messages(previos + ErrosFuncionario(funcionarios, dto) + Converter(lancamentos, dto, fmt.parse).erros)
    ensures fmt.parse(dto.data).Some? ==>
      (e.outcome.Responded? && e.outcome.response.Accepted? <==>
        previos + ErrosFuncionario(funcionarios, dto) + Converter(lancamentos, dto, fmt.parse).erros == [])
    ensures e.outcome.Responded? && e.outcome.response.Accepted? ==>
      exists k :: k in e.lancamentos && e.lancamentos == lancamentos[k := e.lancamentos[k]]
        && e.lancamentos[k].id == Some(k) && e.outcome.response.data.id == Some(k)
  {
    match Decidir(funcionarios, lancamentos, previos, dto, fmt.parse)
    case FalhaData => Efeito(ParseException(dto.data), lancamentos, nextId)
    case Rejeitado(erros) => Efeito(Responded(Rejected(Messages(erros))), lancamentos, nextId)
    case Aceito(l) =>
      var saved := Gravado(lancamentos, nextId, l);
      var k := saved.id.value;
      assert lancamentos[k := saved][k] == saved;
      assert lancamentos[k := saved] == lancamentos[k := saved][k := lancamentos[k := saved][k]];
      Efeito(Responded(Accepted(ConverteLancamentoDto(saved, fmt.format))),
             lancamentos[k := saved],
             if l.id.Some? && l.id.value in lancamentos then nextId else nextId + 1)
  }

  /** Creating an entry stores one new entry under the next id, owned by the DTO's employee. */
  lemma AdicionarGravaNovo(funcionarios: map<Id, Funcionario>, lancamentos: map<Id, Lancamento>, nextId: Id,
                           previos: seq<ObjectError>, dto: LancamentoDto, fmt: DateFormat)
    requires forall i :: i in lancamentos ==> i < nextId
    requires dto.id.None?
    requires Decidir(funcionarios, lancamentos, previos, dto, fmt.parse).Aceito?
    ensures var e := Processar(funcionarios, lancamentos, nextId, previos, dto, fmt);
      var novo := Lancamento(Some(nextId), fmt.parse(dto.data), dto.descricao, dto.localizacao,
                             ParseTipo(dto.tipo), dto.funcionarioId);
      && nextId !in lancamentos
      && e.lancamentos == lancamentos[nextId := novo]
      && e.outcome == Responded(Accepted(ConverteLancamentoDto(novo, fmt.format)))
      && e.nextId == nextId + 1
  {
  }

  /** Updating a stored entry rewrites it under its own id and keeps its owner, whatever employee the DTO names. */
  lemma AtualizarMantemFuncionario(funcionarios: map<Id, Funcionario>, lancamentos: map<Id, Lancamento>, nextId: Id,
                                   previos: seq<ObjectError>, dto: LancamentoDto, fmt: DateFormat)
    requires forall i {:trigger lancamentos[i]} :: i in lancamentos ==> lancamentos[i].id == Some(i)
    requires dto.id.Some?
    requires Decidir(funcionarios, lancamentos, previos, dto, fmt.parse).Aceito?
    ensures var e := Processar(funcionarios, lancamentos, nextId, previos, dto, fmt);
      var k := dto.id.value;
      var atualizado := lancamentos[k].(data := fmt.parse(dto.data), descricao := dto.descricao,
                                        localizacao := dto.localizacao, tipo := ParseTipo(dto.tipo));
      && e.lancamentos == lancamentos[k := atualizado]
      && e.lancamentos[k].funcionario == lancamentos[k].funcionario
      && e.outcome == Responded(Accepted(ConverteLancamentoDto(atualizado, fmt.format)))
      && e.nextId == nextId
  {
    var k := dto.id.value;
    var d := Decidir(funcionarios, lancamentos, previos, dto, fmt.parse);
    var l := d.lancamento;
    assert k in lancamentos;
    var antigo := lancamentos[k];
    assert antigo.id == Some(k);
    assert l.id == Some(dto.id.value);
    assert Gravado(lancamentos, nextId, l) == l;
  }

  /**
   * With nothing valid (no employee id, an unknown entry id, an unknown kind)
   * the three messages come in the order the checks run.
   */
  lemma ErrosNaOrdem(funcionarios: map<Id, Funcionario>, lancamentos: map<Id, Lancamento>, nextId: Id,
                     dto: LancamentoDto, fmt: DateFormat)
    requires dto.funcionarioId.None? && dto.id.Some? && dto.id.value !in lancamentos
    requires fmt.parse(dto.data).Some? && ParseTipo(dto.tipo).None?
    ensures Processar(funcionarios, lancamentos, nextId, [], dto, fmt).outcome
      == Responded(Rejected(["Funcionário não informado.", "Lançamento nao encontrado.", "Tipo inválido."]))
  {
    var erros := [FuncionarioNaoInformado, LancamentoNaoEncontrado, TipoInvalido];
    assert Decidir(funcionarios, lancamentos, [], dto, fmt.parse) == Rejeitado(erros);
    assert Messages(erros) == ["Funcionário não informado.", "Lançamento nao encontrado.", "Tipo inválido."];
  }

  /** Sending a stored entry's own DTO back as an update is accepted and leaves the store as it was. */
  lemma AtualizarComOProprioDto(funcionarios: map<Id, Funcionario>, lancamentos: map<Id, Lancamento>, nextId: Id,
                                l: Lancamento, fmt: DateFormat)
    requires l.id.Some? && l.data.Some? && l.tipo.Some?
    requires l.id.value in lancamentos && lancamentos[l.id.value] == l
    requires l.funcionario.Some? && l.funcionario.value in funcionarios
    requires fmt.parse(fmt.format(l.data.value)) == l.data
    ensures var e := Processar(funcionarios, lancamentos, nextId, [], ConverteLancamentoDto(l, fmt.format), fmt);
      e.lancamentos == lancamentos && e.nextId == nextId
      && e.outcome == Responded(Accepted(ConverteLancamentoDto(l, fmt.format)))
  {
    ConverteIdaEVolta(lancamentos, l, fmt);
    assert lancamentos[l.id.value := l] == lancamentos;
  }

  class LancamentoController {
    const db: Database
    const dateFormat: DateFormat

    constructor (db: Database, dateFormat: DateFormat)
      ensures this.db == db && this.dateFormat == dateFormat
    {
      this.db := db;
      this.dateFormat := dateFormat;
    }

    /** `validarFuncionario`: appends the employee-reference errors. */
    method ValidarFuncionario(dto: LancamentoDto, result: BindingResult)
      modifies result
      ensures result.errors == old(result.errors) + ErrosFuncionario(db.funcionarios, dto)
    {
      if dto.funcionarioId.None? {
        result.AddError(FuncionarioNaoInformado);
        return;
      }
      var funcionario := db.BuscarFuncionarioPorId(dto.funcionarioId.value);
      if funcionario.None? {
        result.AddError(FuncionarioNaoEncontrado);
      }
    }

    /**
     * `converteLancamentoDtoParaLancamento`: `None` stands for the
     * `ParseException` of the date; otherwise the entry and the appended errors
     * are those of `Converter`.
     */
    method ConverteLancamentoDtoParaLancamento(dto: LancamentoDto, result: BindingResult) returns (r: Option<Lancamento>)
      modifies result
      ensures var c := Converter(db.lancamentos, dto, dateFormat.parse);
        && (r.None? <==> c.DataInvalida?)
        && (c.Convertido? ==> r == Some(c.lancamento) && result.errors == old(result.errors) + c.erros)
    {
      var lancamento := NovoLancamento;
      if dto.id.Some? {
        var lanc := db.BuscarLancamentoPorId(dto.id.value);
        if lanc.Some? {
          lancamento := lanc.value;
        } else {
          result.AddError(LancamentoNaoEncontrado);
        }
      } else {
        lancamento := lancamento.(funcionario := dto.funcionarioId);
      }
      lancamento := lancamento.(descricao := dto.descricao);
      lancamento := lancamento.(localizacao := dto.localizacao);
      var data := dateFormat.parse(dto.data);
      if data.None? {
        return None;
      }
      lancamento := lancamento.(data := data);
      var tipo := ParseTipo(dto.tipo);
      if tipo.Some? {
        lancamento := lancamento.(tipo := tipo);
      } else {
        result.AddError(TipoInvalido);
      }
      r := Some(lancamento);
    }

    /** The part `adicionar` and `atualizar` share once the employee check has run. */
    method ConverterEGravar(dto: LancamentoDto, result: BindingResult, ghost previos: seq<ObjectError>)
      returns (o: Outcome<LancamentoDto>)
      requires db.Valid()
      requires result.errors == previos + ErrosFuncionario(db.funcionarios, dto)
      modifies db, result
      ensures db.Valid()
      ensures dateFormat.parse(dto.data).Some? ==>
        result.errors == previos + ErrosFuncionario(old(db.funcionarios), dto)
                         + Converter(old(db.lancamentos), dto, dateFormat.parse).erros
      ensures var e := Processar(old(db.funcionarios), old(db.lancamentos), old(db.nextId), previos, dto, dateFormat);
        && o == e.outcome
        && db.lancamentos == e.lancamentos && db.nextId == e.nextId
        && db.funcionarios == old(db.funcionarios) && db.empresas == old(db.empresas)
    {
      ghost var d := Decidir(db.funcionarios, db.lancamentos, previos, dto, dateFormat.parse);
      var lancamento := ConverteLancamentoDtoParaLancamento(dto, result);
      if lancamento.None? {
        return ParseException(dto.data);
      }
      if result.HasErrors() {
        var messages := CopyMessages(result.errors);
        return Responded(Rejected(messages));
      }
      assert d.Aceito? && d.lancamento == lancamento.value;
      if dto.id.Some? {
        assert LancamentoGuardado(db.lancamentos[dto.id.value], dto.id.value, db.nextId, db.funcionarios);
      }
      var saved := db.PersistirLancamento(lancamento.value);
      o := Responded(Accepted(ConverteLancamentoDto(saved, dateFormat.format)));
    }

    /** `adicionar` (POST): validate, convert, then reject or persist. */
    method Adicionar(dto: LancamentoDto, result: BindingResult) returns (o: Outcome<LancamentoDto>)
      requires db.Valid()
      modifies db, result
      ensures db.Valid()
      ensures dateFormat.parse(dto.data).Some? ==>
        result.errors == old(result.errors) + ErrosFuncionario(old(db.funcionarios), dto)
                         + Converter(old(db.lancamentos), dto, dateFormat.parse).erros
      ensures var e := Processar(old(db.funcionarios), old(db.lancamentos), old(db.nextId), old(result.errors), dto, dateFormat);
        && o == e.outcome
        && db.lancamentos == e.lancamentos && db.nextId == e.nextId
        && db.funcionarios == old(db.funcionarios) && db.empresas == old(db.empresas)
    {
      ghost var previos := result.errors;
      ValidarFuncionario(dto, result);
      o := ConverterEGravar(dto, result, previos);
    }

    /**
     * `atualizar` (PUT /{id}): the employee check runs on the DTO as sent, then
     * the path id replaces the DTO's id and the pipeline goes on as for create.
     */
    method Atualizar(id: Id, dto: LancamentoDto, result: BindingResult) returns (o: Outcome<LancamentoDto>)
      requires db.Valid()
      modifies db, result
      ensures db.Valid()
      ensures dateFormat.parse(dto.data).Some? ==>
        result.errors == old(result.errors) + ErrosFuncionario(old(db.funcionarios), dto)
                         + Converter(old(db.lancamentos), dto.(id := Some(id)), dateFormat.parse).erros
      ensures var e := Processar(old(db.funcionarios), old(db.lancamentos), old(db.nextId), old(result.errors),
                                 dto.(id := Some(id)), dateFormat);
        && o == e.outcome
        && db.lancamentos == e.lancamentos && db.nextId == e.nextId
        && db.funcionarios == old(db.funcionarios) && db.empresas == old(db.empresas)
    {
      ghost var previos := result.errors;
      ValidarFuncionario(dto, result);
      var comId := dto.(id := Some(id));
      o := ConverterEGravar(comId, result, previos);
    }

    /** `remover` (DELETE /{id}): a missing entry is one error and no change; a stored one is removed, alone. */
    method Remover(id: Id) returns (r: Response<()>)
      requires db.Valid()
      modifies db
      ensures db.Valid()
      ensures id !in old(db.lancamentos) ==>
        r == Rejected([RegistroNaoEncontradoAoRemover(id)]) && db.lancamentos == old(db.lancamentos)
      ensures id in old(db.lancamentos) ==>
        r == Accepted(()) && db.lancamentos == old(db.lancamentos) - {id}
      ensures db.funcionarios == old(db.funcionarios) && db.empresas == old(db.empresas) && db.nextId == old(db.nextId)
    {
      var lancamento := db.BuscarLancamentoPorId(id);
      if lancamento.None? {
        return Rejected([RegistroNaoEncontradoAoRemover(id)]);
      }
      db.RemoverLancamento(id);
      r := Accepted(());
    }

    /** `listaPorId` (GET /{id}): read-only; the stored entry's DTO, or one error naming the id. */
    method ListaPorId(id: Id) returns (r: Response<LancamentoDto>)
      requires db.Valid()
      ensures id in db.lancamentos ==>
        db.lancamentos[id].id == Some(id) && r == Accepted(ConverteLancamentoDto(db.lancamentos[id], dateFormat.format))
      ensures id !in db.lancamentos ==> r == Rejected([LancamentoNaoEncontradoParaId(id)])
    {
      var lancamento := db.BuscarLancamentoPorId(id);
      if lancamento.None? {
        return Rejected([LancamentoNaoEncontradoParaId(id)]);
      }
      assert LancamentoGuardado(lancamento.value, id, db.nextId, db.funcionarios);
      r := Accepted(ConverteLancamentoDto(lancamento.value, dateFormat.format));
    }
  }
}
