/**
 * The database the workflow reads and writes, as one object whose tables are maps
 * from primary key to row. The foreign keys declared on the tables hold in every
 * committed state; `Valid` states them.
 */
module Store {
  import opened Outcomes
  import opened Models

  class Database {
    var notas: map<Id, NotaFiscal>
    var clientes: map<Id, Cliente>
    var usuarios: map<Uuid, Usuario>
    /** The CNAE-to-service-code table; nothing modelled writes it. */
    var cnae: seq<CnaeListaAtividades>
    /** The next value of the invoice and client id sequences. */
    var proximaNota: Id
    var proximoCliente: Id

    /** Primary keys match the rows, sequences are ahead of every id, and foreign keys resolve. */
    ghost predicate Valid()
      reads this
    {
      && 0 < proximaNota && 0 < proximoCliente
      && NotasCoerentes(notas, clientes, usuarios, proximaNota)
      && ClientesCoerentes(clientes, usuarios, proximoCliente)
      && UsuariosCoerentes(usuarios)
    }

    /** An empty database over the given CNAE table. */
    constructor (tabela: seq<CnaeListaAtividades>)
      ensures Valid()
      ensures notas == map[] && clientes == map[] && usuarios == map[]
      ensures cnae == tabela && proximaNota == 1 && proximoCliente == 1
    {
      notas := map[];
      clientes := map[];
      usuarios := map[];
      cnae := tabela;
      proximaNota := 1;
      proximoCliente := 1;
    }
  }

  /** Every invoice is stored under its id, below the sequence, and its owner and client exist. */
  predicate NotasCoerentes(notas: map<Id, NotaFiscal>, clientes: map<Id, Cliente>, usuarios: map<Uuid, Usuario>, proxima: Id) {
    && (forall k :: k in notas ==> notas[k].id == k && 0 < k < proxima)
    && (forall k :: k in notas ==> notas[k].usuarioId in usuarios)
    && (forall k :: k in notas && notas[k].clienteId.Some? ==> notas[k].clienteId.value in clientes)
  }

  /** Every client is stored under its id, below the sequence, and its owner exists. */
  predicate ClientesCoerentes(clientes: map<Id, Cliente>, usuarios: map<Uuid, Usuario>, proximo: Id) {
    && (forall k :: k in clientes ==> clientes[k].id == k && 0 < k < proximo)
    && (forall k :: k in clientes ==> clientes[k].usuarioId in usuarios)
  }

  /** Every user is stored under its id. */
  predicate UsuariosCoerentes(usuarios: map<Uuid, Usuario>) {
    forall u :: u in usuarios ==> usuarios[u].id == u
  }

  /** The invoice with `clienteId` cleared when it points at one of `removidos` (ON DELETE SET NULL). */
  function Desvincular(n: NotaFiscal, removidos: set<Id>): (r: NotaFiscal)
    ensures r.clienteId.Some? ==> r.clienteId.value !in removidos
    ensures r == n || (n.clienteId.Some? && n.clienteId.value in removidos && r == n.(clienteId := None))
  {
    if n.clienteId.Some? && n.clienteId.value in removidos then n.(clienteId := None) else n
  }

  /** Every invoice of `notas`, detached from the removed clients. */
  function DesvincularClientes(notas: map<Id, NotaFiscal>, removidos: set<Id>): (r: map<Id, NotaFiscal>)
    ensures r.Keys == notas.Keys
    ensures forall k :: k in r ==> r[k] == Desvincular(notas[k], removidos)
  {
    map k | k in notas :: Desvincular(notas[k], removidos)
  }
}
