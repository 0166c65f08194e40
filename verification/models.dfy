/**
 * The rows of the tables the invoice workflow works on (users, their activities,
 * clients, invoices, the CNAE-to-service-code table) and the request bodies it receives.
 * Money is in cents and tax rates in hundredths of a percent; only equality matters.
 */
module Models {
  import opened Outcomes

  /** User ids are UUIDs; the model only compares them. */
  type Uuid = nat

  /** Primary keys drawn from an auto-increment sequence. */
  type Id = nat

  // Rows of the status table referred to by the code.
  const Pendente := 1
  const Emitida := 2
  const Aprovada := 4
  const Recusada := 5

  // Rows of the role table referred to by the code.
  const Admin := 1
  const Emissor := 2

  /** An activity (CNAE code and its description) registered for a user. */
  datatype Atividade = Atividade(codCnae: string, descCnae: string)

  /** A registered issuer or administrator; `atividades` is the user's activity rows. */
  datatype Usuario = Usuario(
    id: Uuid,
    email: string,
    cnpjCpf: string,
    razaoSocial: string,
    aliquota: Option<int>,
    emite: Option<bool>,
    inscMunicipal: Option<string>,
    telefone: Option<string>,
    pais: Option<string>,
    uf: Option<string>,
    cidade: Option<string>,
    cep: Option<string>,
    logradouro: Option<string>,
    numero: Option<string>,
    complemento: Option<string>,
    bairro: Option<string>,
    roleId: int,
    atividades: seq<Atividade>)

  /** A client (tomador) owned by one issuer. */
  datatype Cliente = Cliente(
    id: Id,
    usuarioId: Uuid,
    razaoSocial: string,
    cpfCnpj: Option<string>,
    email: Option<string>,
    telefone: Option<string>,
    pais: Option<string>,
    uf: Option<string>,
    cidade: Option<string>,
    cep: Option<string>,
    logradouro: Option<string>,
    numero: Option<string>,
    complemento: Option<string>,
    bairro: Option<string>)

  /** An invoice row. `dataEmissao` is kept as opaque text: nothing modelled writes it. */
  datatype NotaFiscal = NotaFiscal(
    id: Id,
    usuarioId: Uuid,
    clienteId: Option<Id>,
    numeroNota: Option<string>,
    dataEmissao: Option<string>,
    valorTotal: int,
    descricao: Option<string>,
    statusId: int,
    codCnae: Option<string>,
    aliquota: Option<int>,
    descMotivo: Option<string>,
    codigoListaServico: Option<string>)

  /** A row of the CNAE-to-service-list table. */
  datatype CnaeListaAtividades = CnaeListaAtividades(
    id: Id,
    cnaeNumerico: string,
    cnaeDescricao: string,
    codigoListaServico: string,
    listaServicoDescricao: string)

  /** The client columns a request may write. */
  datatype CampoCliente =
    | RazaoSocial | CpfCnpj | Email | Telefone | Pais | Uf | Cidade | Cep
    | Logradouro | Numero | Complemento | Bairro

  /** The body of a client-creation request. */
  datatype ClienteCreate = ClienteCreate(
    razaoSocial: string,
    cpfCnpj: Option<string>,
    email: Option<string>,
    telefone: Option<string>,
    pais: Option<string>,
    uf: Option<string>,
    cidade: Option<string>,
    cep: Option<string>,
    logradouro: Option<string>,
    numero: Option<string>,
    complemento: Option<string>,
    bairro: Option<string>)

  /**
   * The body of an invoice creation or edit request. `enviados` holds the optional
   * client fields (email, telefone, complemento) the request set explicitly; the
   * other client fields are required and always present.
   */
  datatype NotaFiscalCreate = NotaFiscalCreate(
    cpfCnpj: string,
    razaoSocial: string,
    email: Option<string>,
    telefone: Option<string>,
    pais: string,
    uf: string,
    cidade: string,
    cep: string,
    logradouro: string,
    numero: string,
    complemento: Option<string>,
    bairro: string,
    codCnae: string,
    valorTotal: int,
    descricao: Option<string>,
    enviados: set<CampoCliente>)
}
