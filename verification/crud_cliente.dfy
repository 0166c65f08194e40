/**
 * The client registry: lookups scoped to the owning issuer, creation that refuses
 * a second client with the same document for the same issuer, owner-scoped
 * deletion and the field-by-field edit.
 */
module CrudCliente {
  import opened Outcomes
  import opened Models
  import opened Store

  /** The value of one writable column of a client; the company name is never NULL. */
  function Campo(c: Cliente, f: CampoCliente): Option<string> {
    match f
    case RazaoSocial => Some(c.razaoSocial)
    case CpfCnpj => c.cpfCnpj
    case Email => c.email
    case Telefone => c.telefone
    case Pais => c.pais
    case Uf => c.uf
    case Cidade => c.cidade
    case Cep => c.cep
    case Logradouro => c.logradouro
    case Numero => c.numero
    case Complemento => c.complemento
    case Bairro => c.bairro
  }

  /** One attribute assignment on a client row. */
  function ComCampo(c: Cliente, f: CampoCliente, v: Option<string>): (r: Cliente)
    requires f == RazaoSocial ==> v.Some?
    ensures Campo(r, f) == v
    ensures forall g :: g != f ==> Campo(r, g) == Campo(c, g)
    ensures r.id == c.id && r.usuarioId == c.usuarioId
  {
    match f
    case RazaoSocial => c.(razaoSocial := v.value)
    case CpfCnpj => c.(cpfCnpj := v)
    case Email => c.(email := v)
    case Telefone => c.(telefone := v)
    case Pais => c.(pais := v)
    case Uf => c.(uf := v)
    case Cidade => c.(cidade := v)
    case Cep => c.(cep := v)
    case Logradouro => c.(logradouro := v)
    case Numero => c.(numero := v)
    case Complemento => c.(complemento := v)
    case Bairro => c.(bairro := v)
  }

  /**
   * The attribute-assignment loop: every column named in `dados` takes its value,
   * every other column keeps the old one, the keys stay.
   */
  method AplicarCampos(c: Cliente, dados: map<CampoCliente, Option<string>>) returns (r: Cliente)
    requires RazaoSocial in dados ==> dados[RazaoSocial].Some?
    ensures r.id == c.id && r.usuarioId == c.usuarioId
    ensures forall f :: Campo(r, f) == if f in dados then dados[f] else Campo(c, f)
  {
    r := c;
    var restantes := dados.Keys;
    while restantes != {}
      invariant restantes <= dados.Keys
      invariant r.id == c.id && r.usuarioId == c.usuarioId
      invariant forall f :: Campo(r, f) == if f in dados && f !in restantes then dados[f] else Campo(c, f)
      decreases restantes
    {
      var f :| f in restantes;
      r := ComCampo(r, f, dados[f]);
      restantes := restantes - {f};
    }
  }

  /** The client with primary key `id`, whoever owns it. */
  function GetClienteById(db: Database, id: int): (r: Option<Cliente>)
    reads db
    ensures r.Some? <==> id in db.clientes
    ensures r.Some? ==> r.value == db.clientes[id]
  {
    if id in db.clientes then Some(db.clientes[id]) else None
  }

  /** The client with primary key `id` if `atual` owns it: another issuer's client is never returned. */
  function GetClienteByIdUsuario(db: Database, id: int, atual: Uuid): (r: Option<Cliente>)
    reads db
    ensures r.Some? ==> r.value.usuarioId == atual && id in db.clientes && db.clientes[id] == r.value
    ensures r.None? <==> id !in db.clientes || db.clientes[id].usuarioId != atual
  {
    if id in db.clientes && db.clientes[id].usuarioId == atual then Some(db.clientes[id]) else None
  }

  /**
   * The ids of `atual`'s clients whose document equals `cpf`. An absent `cpf`
   * compares as IS NULL, so it finds the clients without a document.
   */
  function Correspondentes(clientes: map<Id, Cliente>, cpf: Option<string>, atual: Uuid): set<Id> {
    set k | k in clientes && clientes[k].usuarioId == atual && clientes[k].cpfCnpj == cpf
  }

  /** A non-empty set has a member. */
  lemma Escolha(s: set<Id>)
    requires |s| > 0
    ensures exists x :: x in s
  {
    var x :| x in s;
  }

  /** A set with two distinct members has at least two elements. */
  lemma DoisElementos(s: set<Id>, a: Id, b: Id)
    requires a in s && b in s && a != b
    ensures |s| >= 2
  {
    assert {a, b} <= s;
    assert |{a, b}| == 2;
    assert |s - {a, b}| + 2 == |s|;
  }

  /**
   * The lookup by document within one issuer's clients: none, the single match,
   * or a 500 when the query finds several rows where it expects at most one.
   */
  method GetClienteByCpfCnpj(db: Database, cpf: Option<string>, atual: Uuid) returns (r: Result<Option<Cliente>>)
    ensures r == Ok(None) <==> Correspondentes(db.clientes, cpf, atual) == {}
    ensures r.Err? <==> |Correspondentes(db.clientes, cpf, atual)| > 1
    ensures r.Err? ==> r.code == InternalServerError
    ensures r.Ok? && r.value.Some? ==>
      exists k :: Correspondentes(db.clientes, cpf, atual) == {k} && db.clientes[k] == r.value.value
    ensures r.Ok? && r.value.Some? ==> r.value.value.usuarioId == atual && r.value.value.cpfCnpj == cpf
  {
    var encontrados := Correspondentes(db.clientes, cpf, atual);
    if encontrados == {} {
      return Ok(None);
    }
    if |encontrados| > 1 {
      return Err(InternalServerError);
    }
    Escolha(encontrados);
    var k :| k in encontrados;
    assert encontrados == {k} by {
      forall j | j in encontrados ensures j == k {
        if j != k {
          DoisElementos(encontrados, j, k);
        }
      }
    }
    r := Ok(Some(db.clientes[k]));
  }

  /** At most one client per issuer and document (absent documents included). */
  ghost predicate ClientesUnicos(clientes: map<Id, Cliente>) {
    forall a, b :: a in clientes && b in clientes && a != b ==>
      clientes[a].usuarioId != clientes[b].usuarioId || clientes[a].cpfCnpj != clientes[b].cpfCnpj
  }

  /** Under uniqueness the lookup by document never finds more than one row, so it never fails. */
  lemma UnicosNoMaximoUm(clientes: map<Id, Cliente>, cpf: Option<string>, atual: Uuid)
    requires ClientesUnicos(clientes)
    ensures |Correspondentes(clientes, cpf, atual)| <= 1
  {
    var s := Correspondentes(clientes, cpf, atual);
    if |s| > 1 {
      Escolha(s);
      var a :| a in s;
      Escolha(s - {a});
      assert false;
    }
  }

  /** The row a creation inserts: the request's columns, owned by the caller whatever the request said. */
  function NovoCliente(id: Id, atual: Uuid, dados: ClienteCreate): (r: Cliente)
    ensures r.id == id && r.usuarioId == atual && Campo(r, RazaoSocial) == Some(dados.razaoSocial)
    ensures r.cpfCnpj == dados.cpfCnpj && r.email == dados.email && r.telefone == dados.telefone
    ensures r.pais == dados.pais && r.uf == dados.uf && r.cidade == dados.cidade && r.cep == dados.cep
    ensures r.logradouro == dados.logradouro && r.numero == dados.numero
    ensures r.complemento == dados.complemento && r.bairro == dados.bairro
  {
    Cliente(id, atual, dados.razaoSocial, dados.cpfCnpj, dados.email, dados.telefone, dados.pais,
      dados.uf, dados.cidade, dados.cep, dados.logradouro, dados.numero, dados.complemento, dados.bairro)
  }

  /**
   * Client creation for `atual`: refused with 400 when `atual` already has a client
   * with that document (500 when there are several), otherwise inserted under the
   * next id, owned by `atual`.
   */
  method CreateCliente(db: Database, dados: ClienteCreate, atual: Uuid) returns (r: Result<Cliente>)
    requires db.Valid() && atual in db.usuarios
    modifies db`clientes, db`proximoCliente
    ensures db.Valid()
    ensures var achados := Correspondentes(old(db.clientes), dados.cpfCnpj, atual);
      && (|achados| == 1 ==> r == Err(BadRequest))
      && (|achados| > 1 ==> r == Err(InternalServerError))
      && (achados == {} <==> r.Ok?)
    ensures r.Err? ==> db.clientes == old(db.clientes) && db.proximoCliente == old(db.proximoCliente)
    ensures r.Ok? ==>
      && r.value == NovoCliente(old(db.proximoCliente), atual, dados)
      && r.value.id !in old(db.clientes)
      && db.clientes == old(db.clientes)[r.value.id := r.value]
      && db.proximoCliente == old(db.proximoCliente) + 1
    ensures ClientesUnicos(old(db.clientes)) ==> ClientesUnicos(db.clientes)
  {
    var existente := GetClienteByCpfCnpj(db, dados.cpfCnpj, atual);
    if existente.Err? {
      return Err(existente.code);
    }
    if existente.value.Some? {
      return Err(BadRequest);
    }
    var novo := NovoCliente(db.proximoCliente, atual, dados);
    assert novo.id !in db.clientes;
    ghost var antes := db.clientes;
    db.clientes := db.clientes[novo.id := novo];
    db.proximoCliente := db.proximoCliente + 1;
    r := Ok(novo);
    assert ClientesUnicos(antes) ==> ClientesUnicos(db.clientes) by {
      if ClientesUnicos(antes) {
        forall a, b | a in db.clientes && b in db.clientes && a != b
          ensures db.clientes[a].usuarioId != db.clientes[b].usuarioId || db.clientes[a].cpfCnpj != db.clientes[b].cpfCnpj
        {
          if a == novo.id {
            assert b !in Correspondentes(antes, dados.cpfCnpj, atual);
          } else if b == novo.id {
            assert a !in Correspondentes(antes, dados.cpfCnpj, atual);
          }
        }
      }
    }
  }

  /**
   * Owner-scoped deletion: the client goes only when `atual` owns it, and the
   * invoices pointing at it lose their client (ON DELETE SET NULL); otherwise
   * nothing changes.
   */
  method DeleteCliente(db: Database, id: int, atual: Uuid)
    requires db.Valid()
    modifies db`clientes, db`notas
    ensures db.Valid()
    ensures id in old(db.clientes) && old(db.clientes)[id].usuarioId == atual ==>
      db.clientes == old(db.clientes) - {id} && db.notas == DesvincularClientes(old(db.notas), {id})
    ensures !(id in old(db.clientes) && old(db.clientes)[id].usuarioId == atual) ==>
      db.clientes == old(db.clientes) && db.notas == old(db.notas)
  {
    var cliente := GetClienteByIdUsuario(db, id, atual);
    if cliente.None? {
      return;
    }
    db.clientes := db.clientes - {id};
    db.notas := DesvincularClientes(db.notas, {id});
  }

  /**
   * The edit of a client by id: the named columns take the given values and the
   * rest stay. A missing id changes nothing; a NULL company name violates the
   * column's NOT NULL constraint at commit, so the edit fails with 500 and
   * nothing is written.
   */
  method EditaCliente(db: Database, id: int, dados: map<CampoCliente, Option<string>>) returns (r: Result<()>)
    requires db.Valid()
    modifies db`clientes
    ensures db.Valid()
    ensures r.Err? <==> id in old(db.clientes) && RazaoSocial in dados && dados[RazaoSocial].None?
    ensures r.Err? ==> r.code == InternalServerError
    ensures r.Err? || id !in old(db.clientes) ==> db.clientes == old(db.clientes)
    ensures r.Ok? && id in old(db.clientes) ==>
      && db.clientes.Keys == old(db.clientes).Keys
      && (forall k :: k in db.clientes && k != id ==> db.clientes[k] == old(db.clientes)[k])
      && db.clientes[id].id == id && db.clientes[id].usuarioId == old(db.clientes)[id].usuarioId
      && (forall f :: Campo(db.clientes[id], f) == if f in dados then dados[f] else Campo(old(db.clientes)[id], f))
  {
    if id !in db.clientes {
      return Ok(());
    }
    if RazaoSocial in dados && dados[RazaoSocial].None? {
      return Err(InternalServerError);
    }
    var editado := AplicarCampos(db.clientes[id], dados);
    db.clientes := db.clientes[id := editado];
    r := Ok(());
  }
}
