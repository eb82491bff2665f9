# Time-tracking backend: controllers and the company entity

This project is a Dafny model of the REST layer of a Spring Boot time-tracking
backend ("ponto inteligente"). It covers five parts:

- **Time entries (lançamentos).** `LancamentoController` creates, updates,
  deletes and reads a single entry. It first checks the employee reference, then
  converts the DTO. On any error it rejects with every message, in order.
  Otherwise it persists the entry and answers with its DTO.
- **Employee sign-up (pessoa física).** `CadastroPFController` signs an employee
  up under an existing company. Three existence checks run, each regardless of
  the others. Then the employee is converted, linked to the company and stored.
- **Company sign-up (pessoa jurídica).** `CadastroPJController` signs a company
  up together with its administrator. The company is stored first. The
  administrator is then linked to it and stored.
- **Company lookup.** `EmpresaController` finds a company by CNPJ.
- **The company entity.** The `Empresa` entity has setters and two JPA lifecycle
  hooks, `@PrePersist` and `@PreUpdate`.

How the files are laid out:

| file | contents |
|---|---|
| `wrappers.dfy` | `Option` |
| `entities.dfy` | roles; entry kinds; employee, time-entry and company rows as values; the `Empresa` class, whose fields its methods update in place |
| `web.dfy` | `ObjectError`; `BindingResult` as a class with an error list; the response shapes; the loop that copies error messages into the response; the decimal rendering of ids |
| `erros.dfy` | every error text the controllers produce, written out exactly |
| `persistence.dfy` | the stores behind the services, as a `Database` class (see below) |
| `lancamento_controller.dfy`, `cadastro_pf_controller.dfy`, `cadastro_pj_controller.dfy`, `empresa_controller.dfy` | one module per controller |

The `Database` class has these parts:

- companies, keyed by CNPJ;
- employees, keyed by id;
- time entries, keyed by id;
- one id sequence, assumed to be shared by all three stores (see "## Left out");
- an integrity invariant, `Valid()`, which every operation preserves.

Each controller has two layers:

- **Pure functions.** These give the errors it adds, the conversions and the
  whole create/update decision, and lemmas are proved about them.
- **A class with methods.** These change the stores and the `BindingResult`.
  Each method is proved to produce exactly what the pure functions give on the
  old state.

Things outside the model are passed in as parameters:

- the clock reading the entity hooks take, `agora`;
- the `SimpleDateFormat` pair `DateFormat(parse, format)`;
- the BCrypt hash, `PasswordHasher`.

About `BindingResult`:

- The incoming `BindingResult` may already hold bean-validation errors. They
  are kept as a prefix of the accumulated errors.
- An `Outcome` is either a response or the `ParseException` that escapes when
  the date does not parse.

## Model

| member | source | states |
|---|---|---|
| Entities.ParseTipo | src/main/java/br/com/modelo/backend/api/controllers/LancamentoController.java:200-204 | a kind is found exactly when the text is a member's name; any other text finds none |
| Entities.ParseTipoName | src/main/java/br/com/modelo/backend/api/controllers/LancamentoController.java:200-220 | parsing a member's `toString()` gives that member back |
| Entities.TipoNameInjective | src/main/java/br/com/modelo/backend/api/controllers/LancamentoController.java:220 | distinct members have distinct `toString()` names |
| Entities.Empresa.constructor | src/main/java/br/com/modelo/backend/api/entities/Empresa.java:21-23 | a new company has no id, no timestamps and no employees |
| Entities.Empresa.SetId | src/main/java/br/com/modelo/backend/api/entities/Empresa.java:32-34 | sets the id and may change no other field |
| Entities.Empresa.SetRazaoSocial | src/main/java/br/com/modelo/backend/api/entities/Empresa.java:41-43 | sets the legal name and may change no other field |
| Entities.Empresa.SetCnpj | src/main/java/br/com/modelo/backend/api/entities/Empresa.java:50-52 | sets the CNPJ and may change no other field |
| Entities.Empresa.SetDataCriacao | src/main/java/br/com/modelo/backend/api/entities/Empresa.java:60-62 | sets the creation time and may change no other field |
| Entities.Empresa.SetDataAtualizacao | src/main/java/br/com/modelo/backend/api/entities/Empresa.java:70-72 | sets the update time and may change no other field |
| Entities.Empresa.SetFuncionarios | src/main/java/br/com/modelo/backend/api/entities/Empresa.java:79-81 | sets the employee list and may change no other field |
| Entities.Empresa.PreUpdate | src/main/java/br/com/modelo/backend/api/entities/Empresa.java:83-86 | the update time becomes the clock reading; it may change nothing else, so creation time, id, CNPJ, legal name and employees stay |
| Entities.Empresa.PrePersist | src/main/java/br/com/modelo/backend/api/entities/Empresa.java:88-93 | creation and update time both become the same clock reading; id, CNPJ, legal name and employees stay |
| Entities.PersistThenUpdate | src/main/java/br/com/modelo/backend/api/entities/Empresa.java:83-93 | a company persisted and then updated keeps the first reading as creation time, has the last as update time, and keeps the fields the setters gave it |
| Web.BindingResult.AddError | src/main/java/br/com/modelo/backend/api/controllers/LancamentoController.java:163 | appends exactly one error at the end |
| Web.CopyMessages | src/main/java/br/com/modelo/backend/api/controllers/LancamentoController.java:110 | the response errors are the default messages of all accumulated errors, one by one, in order |
| Web.NatToString | src/main/java/br/com/modelo/backend/api/controllers/LancamentoController.java:90 | a natural number renders as a non-empty digit string with no leading zero, whose decimal value is the number |
| Web.IntToString | src/main/java/br/com/modelo/backend/api/controllers/LancamentoController.java:90 | an id renders as a non-empty string that starts with a minus sign exactly when the id is negative, and whose digits, without leading zeros, denote the id's magnitude, so the text is `Long.toString`'s |
| Web.IntToStringInjective | src/main/java/br/com/modelo/backend/api/controllers/LancamentoController.java:147 | different ids render as different texts, so each message names exactly one id |
| Persistence.GravarOcupaCpfEEmail | src/main/java/br/com/modelo/backend/api/services/FuncionarioService.java:27-37 | storing an employee under a new key makes its CPF and email found by `buscarPorCpf`/`buscarPorEmail`, and changes no other CPF's or email's lookup |
| Persistence.Gravado | src/main/java/br/com/modelo/backend/api/services/impl/LancamentoServiceImpl.java:36-39 | `save` keeps every field but the id; a stored id is kept; when all keys are below the next id, the saved entry's id is stored exactly when the entry's own id was |
| Persistence.Database.BuscarEmpresaPorCnpj | src/main/java/br/com/modelo/backend/api/services/EmpresaService.java:16 | present exactly when a company with that CNPJ is stored, and then it is that company |
| Persistence.Database.BuscarFuncionarioPorId | src/main/java/br/com/modelo/backend/api/services/FuncionarioService.java:47 | present exactly when the id is stored, and then it is that employee |
| Persistence.Database.BuscarLancamentoPorId | src/main/java/br/com/modelo/backend/api/services/impl/LancamentoServiceImpl.java:30-33 | present exactly when the id is stored, and then it is that entry |
| Persistence.Database.PersistirEmpresa | src/main/java/br/com/modelo/backend/api/services/EmpresaService.java:26 | runs `@PrePersist`, gives the entity the next id in place, and stores its fields under its CNPJ; other stores are untouched and the invariant is kept |
| Persistence.Database.PersistirFuncionario | src/main/java/br/com/modelo/backend/api/services/FuncionarioService.java:17 | stores the employee under the next id and returns it with that id; the invariant is kept |
| Persistence.Database.PersistirLancamento | src/main/java/br/com/modelo/backend/api/services/impl/LancamentoServiceImpl.java:36-39 | an entry whose id is stored replaces it; any other entry is inserted under the next id; the saved entry comes back |
| Persistence.Database.RemoverLancamento | src/main/java/br/com/modelo/backend/api/services/impl/LancamentoServiceImpl.java:42-45 | removes exactly that key |
| Lancamentos.FuncionarioNaoInformadoSemConsulta | src/main/java/br/com/modelo/backend/api/controllers/LancamentoController.java:162-165 | with no employee id, exactly one "Funcionário não informado." error whatever the employee store holds, so no lookup matters |
| Lancamentos.FuncionarioInformado | src/main/java/br/com/modelo/backend/api/controllers/LancamentoController.java:168-171 | a stored employee id adds no error; an absent one adds exactly the "não encontrado" error |
| Lancamentos.Converter | src/main/java/br/com/modelo/backend/api/controllers/LancamentoController.java:181-207 | see the note below the table |
| Lancamentos.ConverteLancamentoDto | src/main/java/br/com/modelo/backend/api/controllers/LancamentoController.java:216-226 | the DTO copies id, description, location and employee id, carries `format` of the date, and a kind text that parses back to the entry's kind |
| Lancamentos.CriacaoSemConsulta | src/main/java/br/com/modelo/backend/api/controllers/LancamentoController.java:191-194 | without an id the conversion is the same whatever the time-entry store holds |
| Lancamentos.ConverteIdaEVolta | src/main/java/br/com/modelo/backend/api/controllers/LancamentoController.java:181-226 | a stored entry's own DTO converts back to exactly that entry with no error, provided its date survives formatting |
| Lancamentos.Decidir | src/main/java/br/com/modelo/backend/api/controllers/LancamentoController.java:104-112 | accepted only with no error at all, and then the employee exists, date and kind are set, and (on update) the stored id and owner are kept; a rejection carries the errors in the order they were added |
| Lancamentos.Processar | src/main/java/br/com/modelo/backend/api/controllers/LancamentoController.java:119-137 | a rejection or an unparseable date leaves the store and id sequence unchanged; the exception happens exactly when the date does not parse; with a parsed date the request is accepted exactly when no error accumulated; rejected messages are the accumulated ones in order; an acceptance writes one key, the saved entry's own id, which the answer carries |
| Lancamentos.AdicionarGravaNovo | src/main/java/br/com/modelo/backend/api/controllers/LancamentoController.java:134 | an accepted create leaves every existing entry as it was and adds one entry under the next id with the DTO's date, kind, description, location and employee; it answers with that entry's DTO and advances the sequence |
| Lancamentos.AtualizarMantemFuncionario | src/main/java/br/com/modelo/backend/api/controllers/LancamentoController.java:184-197 | an accepted update rewrites only the entry at the DTO's id, giving it the DTO's date, kind, description and location while keeping its id and stored owner whatever employee the DTO names; it answers with that entry's DTO and keeps the sequence |
| Lancamentos.ErrosNaOrdem | src/main/java/br/com/modelo/backend/api/controllers/LancamentoController.java:104-112 | with every check failing, the messages are employee, entry not found, kind, exactly in that order |
| Lancamentos.AtualizarComOProprioDto | src/main/java/br/com/modelo/backend/api/controllers/LancamentoController.java:98-117 | sending back a stored entry's own DTO as an update is accepted, answers with the same DTO and leaves the store as it was |
| Lancamentos.LancamentoController.ValidarFuncionario | src/main/java/br/com/modelo/backend/api/controllers/LancamentoController.java:161-172 | appends exactly the employee-reference errors |
| Lancamentos.LancamentoController.ConverteLancamentoDtoParaLancamento | src/main/java/br/com/modelo/backend/api/controllers/LancamentoController.java:181-207 | throws exactly when the date does not parse; otherwise returns the converted entry and appends the converter's errors |
| Lancamentos.LancamentoController.ConverterEGravar | src/main/java/br/com/modelo/backend/api/controllers/LancamentoController.java:106-116 | the shared tail of create and update: outcome, store and sequence are those of `Processar`; with a parsed date the `BindingResult` ends holding the earlier errors then the converter's; other stores are untouched |
| Lancamentos.LancamentoController.Adicionar | src/main/java/br/com/modelo/backend/api/controllers/LancamentoController.java:119-137 | outcome and new stores are `Processar` of the old state; with a parsed date the `BindingResult` holds the incoming, employee and converter errors in that order; the invariant is kept |
| Lancamentos.LancamentoController.Atualizar | src/main/java/br/com/modelo/backend/api/controllers/LancamentoController.java:98-117 | the employee is checked on the DTO as sent; then the same as create, with the path id, including the final `BindingResult` contents |
| Lancamentos.LancamentoController.Remover | src/main/java/br/com/modelo/backend/api/controllers/LancamentoController.java:139-153 | a missing id gives one error naming it and changes nothing; a stored id is removed alone |
| Lancamentos.LancamentoController.ListaPorId | src/main/java/br/com/modelo/backend/api/controllers/LancamentoController.java:80-96 | read-only: a stored entry's DTO, or one error naming the id |
| CadastroPF.ErrosDadosExistentes | src/main/java/br/com/modelo/backend/api/controllers/CadastroPFController.java:77-88 | at most three errors, in the order company, CPF, email with no repeats; each error is present exactly when its check fails; none exactly when all pass |
| CadastroPF.ErrosNaOrdem | src/main/java/br/com/modelo/backend/api/controllers/CadastroPFController.java:77-88 | with all checks failing, the errors are company, CPF, email, in that order |
| CadastroPF.ConverterDtoParaFuncionario | src/main/java/br/com/modelo/backend/api/controllers/CadastroPFController.java:98-110 | name, email and CPF copied; role user, password = hash of the one sent, not stored nor linked; each optional number's text carried unchanged (present exactly when sent); the unused `result` takes no error |
| CadastroPF.ConverterCadastroPFDto | src/main/java/br/com/modelo/backend/api/controllers/CadastroPFController.java:113-125 | id, name, email and CPF copied; no password; the CNPJ is the linked company's; each optional number's text carried unchanged (present exactly when the employee has it) |
| CadastroPF.CadastroIdaEVolta | src/main/java/br/com/modelo/backend/api/controllers/CadastroPFController.java:98-125 | the echoed DTO of a signed-up employee has the generated id, no password, the sent name, email, CPF and CNPJ, and the same optional numbers present |
| CadastroPF.CadastroPFController.ValidarDadosExistentes | src/main/java/br/com/modelo/backend/api/controllers/CadastroPFController.java:77-88 | appends exactly the existence-check errors |
| CadastroPF.CadastroPFController.Cadastrar | src/main/java/br/com/modelo/backend/api/controllers/CadastroPFController.java:47-69 | with any error nothing is stored and the messages come back in order; otherwise exactly one employee is stored under the next id, linked to the company with the DTO's CNPJ, and the echo has that CNPJ and no password |
| CadastroPJ.ErrosDadosExistentes | src/main/java/br/com/modelo/backend/api/controllers/CadastroPJController.java:77-85 | at most three errors, in the order company, CPF, email with no repeats; each error is present exactly when its check fails; none exactly when all pass |
| CadastroPJ.ErrosNaOrdem | src/main/java/br/com/modelo/backend/api/controllers/CadastroPJController.java:77-85 | with all checks failing, the errors are company, CPF, email, in that order |
| CadastroPJ.ConverterDtoParaEmpresa | src/main/java/br/com/modelo/backend/api/controllers/CadastroPJController.java:93-99 | a new company with the DTO's CNPJ and legal name and nothing else |
| CadastroPJ.ConverterDtoParaFuncionario | src/main/java/br/com/modelo/backend/api/controllers/CadastroPJController.java:109-118 | name, email and CPF copied; role admin, password = hash of the one sent, no optional numbers, not stored nor linked |
| CadastroPJ.ConverterCadastroPJDto | src/main/java/br/com/modelo/backend/api/controllers/CadastroPJController.java:120-130 | id, name, email and CPF copied; no password; CNPJ and legal name are the linked company's |
| CadastroPJ.CadastroIdaEVolta | src/main/java/br/com/modelo/backend/api/controllers/CadastroPJController.java:109-130 | the echoed DTO of a signed-up administrator is the sent DTO with the generated id and no password |
| CadastroPJ.CadastroPJController.ValidaDadosExistentes | src/main/java/br/com/modelo/backend/api/controllers/CadastroPJController.java:77-85 | appends exactly the existence-check errors |
| CadastroPJ.CadastroPJController.PersistirEmpresaEAdmin | src/main/java/br/com/modelo/backend/api/controllers/CadastroPJController.java:63-65 | the company is stored first under the next id and stamped, and the entity itself ends with that id and those timestamps; the administrator, linked to it, is stored under the id after |
| CadastroPJ.CadastroPJController.Cadastrar | src/main/java/br/com/modelo/backend/api/controllers/CadastroPJController.java:46-69 | with any error neither store changes and the messages come back in order; otherwise each store gains exactly one entry, and the echo's CNPJ and legal name equal the sent ones |
| CadastroPJ.CadastroRepetido | src/main/java/br/com/modelo/backend/api/controllers/CadastroPJController.java:46-85 | the same sign-up sent twice on empty stores: the first is accepted, the second is rejected with the three "já existente" messages |
| Empresas.ConverterEmpresaDto | src/main/java/br/com/modelo/backend/api/controllers/EmpresaController.java:60-66 | copies id, CNPJ and legal name exactly |
| Empresas.EmpresaController.BuscarPorCnpj | src/main/java/br/com/modelo/backend/api/controllers/EmpresaController.java:39-52 | read-only; a known CNPJ gives the stored company's DTO, carrying that CNPJ; an unknown one gives exactly one error naming it |
| Empresas.CadastroEntaoBusca | src/main/java/br/com/modelo/backend/api/controllers/EmpresaController.java:42-51 | a company signed up on empty stores is then found by its CNPJ with the first generated id |

What `Lancamentos.Converter` states:

- The date either parses, or the conversion fails with `ParseException`.
- Description and location are always overwritten from the DTO.
- A member name sets the kind. Any other text adds "Tipo inválido." as the last
  error and leaves the kind as it was, which is unset for a new entry.
- The create path owns the DTO's employee.
- An update of a stored entry starts from that entry and keeps its id and owner.
- A missing entry adds "Lançamento nao encontrado." exactly once, first, followed at most by "Tipo inválido."

## Left out
- `listarPorFuncionarioId`: left out. It needs Spring Data pagination and sorting (`PageRequest`, `Page.map`), and that machinery is not part of this model.
- Bean validation (`@Valid`) is not modelled. Its errors enter only as whatever the incoming `BindingResult` already holds.
- HTTP behaviour is not modelled. That covers security (`@PreAuthorize`), caching (`@Cacheable`), CORS, logging and HTTP status codes. Only the ok/bad-request distinction (`Accepted`/`Rejected`) remains.
- `SimpleDateFormat` and BCrypt (`PasswordUtils`) are parameters. Nothing is assumed about them, except where a lemma states its premise, such as the date surviving formatting.
- The `Float`/`BigDecimal` conversions of the optional numbers are not modelled. The numbers are carried as their text, so a `NumberFormatException` on bad text does not occur in the model.
- `CadastroPF.CadastroIdaEVolta`: states only the presence of each optional number, not its text, because the source sends it through `Float`/`BigDecimal` and back.
- `TipoEnum` is not part of this model. Its member set is assumed to be the six start/end names of work, lunch and pause. The repository's test gives only `INICIO_ALMOCO`.
- The `Funcionario` and `Lancamento` entities, and their lifecycle hooks, are not part of this model. They are plain rows here.
- JPA's managed-entity aliasing is not modelled. On update, the entry fetched from the store is a local value changed step by step, and it is written back only by `persistir` on the accepted path. The in-place changes that Hibernate could flush on error are not captured.
- Id generation: the source shows `GenerationType.AUTO` only on `Empresa`. The strategy of the `Funcionario` and `Lancamento` ids, and Hibernate's id-generator configuration, are not part of this model. One sequence shared by the three stores is assumed. The exact ids stated by `CadastroPJ.CadastroRepetido` (2), `Empresas.CadastroEntaoBusca` (1) and the PJ administrator (the company's id plus one) rest on that assumption.
- `Entities.Empresa.constructor`: Java leaves `funcionarios` `null` until set, while the model starts it as the empty list, because null collections are not modelled.
- `NoSuchAlgorithmException`, which both sign-up `cadastrar` methods declare, is not modelled: `PasswordHasher` is a total function, so the hash never fails.
- The controllers' empty constructors are not modelled beyond wiring in the stores and the collaborators.
- Concurrency and transaction atomicity are left out.
- Null strings are left out: every text field is a `string`. The `NullPointerException` paths are excluded by preconditions instead of being modelled, for example a `converteLancamentoDto` of an entry with no id, date or kind, or a `converterCadastroPFDto` of an unlinked employee. The stores' invariant makes those paths unreachable from the controllers.
- `Persistence.Database.RemoverLancamento`: requires a stored id. That is Spring Data's `deleteById` contract, and the controller always checks the id first.
- Companies are stored under their CNPJ rather than their id, because every lookup in the core is by CNPJ. The model also does not capture `Empresa.funcionarios`, the inverse side of the JPA relation, being filled by the stores.
- `Persistence.Database.PersistirFuncionario`: requires unique CPF and email, and a stored company. The source assumes these of the database and never checks them. Every caller in the model establishes them.
- The repository's tests are not modelled. The one test fact used is the `INICIO_ALMOCO` member name.
