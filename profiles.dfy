/** The four illustrative database profiles: their constant metadata, column
    names and seed records, and the names under which the session registers
    them. The four strategy classes of the program differ only in these
    constants, so they are one table indexed by `Kind` here. */
module Profiles {

  /** One record: an ordered row of text fields, aligned with the column names. */
  type Row = seq<string>

  /** Which of the four strategy implementations a store is. */
  datatype Kind = Mongo | Firebase | Postgres | Couchbase

  /** `getDbName()` of each implementation. */
  function DbName(k: Kind): string
  {
    match k
    case Mongo => "MongoDB"
    case Firebase => "Firebase (Firestore)"
    case Postgres => "PostgreSQL"
    case Couchbase => "Couchbase"
  }

  /** `getUseCase()` of each implementation. */
  function UseCase(k: Kind): string
  {
    match k
    case Mongo => "Gestão de Produtos (Mercado)"
    case Firebase => "Sistema de Funcionários (Tempo Real)"
    case Postgres => "Sistema Financeiro/Contábil"
    case Couchbase => "Cache de Sessão / Alta Performance"
  }

  /** `getExplanation()` of each implementation: the text the information
      dialog shows for the profile. */
  function Explanation(k: Kind): string
  {
    match k
    case Mongo =>
      "Por que MongoDB?\n\n" +
      "O MongoDB é um banco NoSQL orientado a documentos (JSON).\n" +
      "Para um mercado, produtos podem ter atributos variados (ex: uma TV tem voltagem, " +
      "uma fruta tem validade). O esquema flexível do Mongo é ideal para catálogos complexos " +
      "onde os dados não seguem uma tabela rígida."
    case Firebase =>
      "Por que Firebase?\n\n" +
      "O Firebase brilha em sincronização em tempo real.\n" +
      "Para um sistema de funcionários onde múltiplos gerentes podem editar escalas " +
      "ou dados simultaneamente, o Firebase atualiza a tela de todos instantaneamente " +
      "sem precisar recarregar (via WebSockets/Listeners)."
    case Postgres =>
      "Por que PostgreSQL?\n\n" +
      "O Postgres é um banco Relacional (SQL) robusto e ACID-compliant.\n" +
      "Para sistemas financeiros, a integridade dos dados e transações seguras são cruciais. " +
      "Relacionamentos rígidos garantem que não existam pagamentos órfãos sem fatura."
    case Couchbase =>
      "Por que Couchbase?\n\n" +
      "O Couchbase é um banco Key-Value e Document Store focado em performance extrema.\n" +
      "Ideal para armazenar sessões de usuário, carrinhos de compra temporários ou cache, " +
      "onde a velocidade de leitura/escrita na memória é mais importante que relacionamentos complexos."
  }

  /** `getColumnNames()` of each implementation: every profile has three columns. */
  function Columns(k: Kind): (cols: seq<string>)
    ensures |cols| == 3
  {
    match k
    case Mongo => ["ID", "Produto", "Preço"]
    case Firebase => ["ID", "Nome", "Departamento"]
    case Postgres => ["ID Transação", "Descrição", "Status"]
    case Couchbase => ["Key (Chave)", "Usuário", "Estado"]
  }

  /** The records each implementation's constructor adds: exactly two, each
      as wide as the profile's column list. */
  function Seed(k: Kind): (rows: seq<Row>)
    ensures |rows| == 2
    ensures forall r :: r in rows ==> |r| == |Columns(k)|
  {
    match k
    case Mongo => [["1", "Arroz 5kg", "R$ 25.00"], ["2", "Feijão", "R$ 8.50"]]
    case Firebase => [["FUNC-01", "Ana Silva", "TI"], ["FUNC-02", "Carlos Souza", "RH"]]
    case Postgres => [["1001", "Fatura Energia", "Pendente"], ["1002", "Pagamento Fornecedor", "Pago"]]
    case Couchbase => [["Sessao_998", "User_X", "Ativa"], ["Sessao_999", "User_Y", "Expirada"]]
  }

  /** The items of the profile combo box, in display order; index 0 is the
      profile selected at start-up. */
  const Choices: seq<string> := ["PostgreSQL", "MongoDB", "Firebase", "Couchbase"]

  /** The keys of the strategies map. */
  const ChoiceSet: set<string> := {"PostgreSQL", "MongoDB", "Firebase", "Couchbase"}

  /** The key under which each implementation is put in the strategies map.
      (For Firebase it differs from `DbName`.) */
  function KeyOf(k: Kind): string
  {
    match k
    case Postgres => "PostgreSQL"
    case Mongo => "MongoDB"
    case Firebase => "Firebase"
    case Couchbase => "Couchbase"
  }
}
