/**
 * User maintenance: the administrators' listing, the partial update with its
 * permission filter and wholesale replacement of activities, deletion with its
 * self-deletion guard, and the batch that copies each user's tax rate onto
 * their pending invoices.
 */
module CrudUsuario {
  import opened Outcomes
  import opened Models
  import opened NotaStatus
  import opened Store

  // ---------------------------------------------------------------------------
  // Listing

  /** The users that are not administrators. */
  function NaoAdmins(usuarios: map<Uuid, Usuario>): set<Uuid> {
    set u | u in usuarios && usuarios[u].roleId != Admin
  }

  /**
   * The administrators' listing: 403 for anyone else; otherwise up to `limite`
   * non-administrator users, each once, as many as there are up to the limit.
   * The query has no ORDER BY, so which ones come back is not specified.
   */
  method GetUsers(db: Database, atual: Usuario, limite: nat) returns (r: Result<seq<Usuario>>)
    requires db.Valid()
    ensures atual.roleId != Admin <==> r == Err(Forbidden)
    ensures atual.roleId == Admin ==> r.Ok?
    ensures r.Ok? ==>
      && |r.value| == (if limite < |NaoAdmins(db.usuarios)| then limite else |NaoAdmins(db.usuarios)|)
      && (forall i :: 0 <= i < |r.value| ==>
            r.value[i].id in NaoAdmins(db.usuarios) && db.usuarios[r.value[i].id] == r.value[i])
      && (forall i, j :: 0 <= i < j < |r.value| ==> r.value[i].id != r.value[j].id)
  {
    if atual.roleId != Admin {
      return Err(Forbidden);
    }
    var candidatos := NaoAdmins(db.usuarios);
    var restantes := candidatos;
    var lista: seq<Usuario> := [];
    while restantes != {} && |lista| < limite
      invariant restantes <= candidatos
      invariant |lista| + |restantes| == |candidatos|
      invariant |lista| <= limite
      invariant forall i :: 0 <= i < |lista| ==>
        lista[i].id in candidatos - restantes && db.usuarios[lista[i].id] == lista[i]
      invariant forall i, j :: 0 <= i < j < |lista| ==> lista[i].id != lista[j].id
      decreases restantes
    {
      var u :| u in restantes;
      lista := lista + [db.usuarios[u]];
      restantes := restantes - {u};
    }
    r := Ok(lista);
  }

  // ---------------------------------------------------------------------------
  // Update

  /** The columns an update request may set. */
  datatype CampoUsuario =
    | Email | RazaoSocial | CnpjCpf | RoleId | Aliquota | Telefone | Pais | Uf | Cidade | Cep
    | Logradouro | Numero | Complemento | Bairro | Emite | InscMunicipal | Atividades

  /** A value sent for a column; every column of the update body may be sent as null. */
  datatype Valor =
    | ValorTexto(texto: Option<string>)
    | ValorInteiro(inteiro: Option<int>)
    | ValorLogico(logico: Option<bool>)
    | ValorLista(lista: Option<seq<Atividade>>)

  /** The value has the column's type. */
  predicate BemTipado(f: CampoUsuario, v: Valor) {
    match f
    case RoleId => v.ValorInteiro?
    case Aliquota => v.ValorInteiro?
    case Emite => v.ValorLogico?
    case Atividades => v.ValorLista?
    case _ => v.ValorTexto?
  }

  /** Columns declared NOT NULL. */
  predicate NaoNulo(f: CampoUsuario) {
    f.Email? || f.RazaoSocial? || f.CnpjCpf? || f.RoleId?
  }

  /** The value is SQL NULL. */
  predicate Nulo(v: Valor) {
    match v
    case ValorTexto(t) => t.None?
    case ValorInteiro(n) => n.None?
    case ValorLogico(b) => b.None?
    case ValorLista(l) => l.None?
  }

  /** The value of a column of a user row. */
  function CampoU(u: Usuario, f: CampoUsuario): Valor {
    match f
    case Email => ValorTexto(Some(u.email))
    case RazaoSocial => ValorTexto(Some(u.razaoSocial))
    case CnpjCpf => ValorTexto(Some(u.cnpjCpf))
    case RoleId => ValorInteiro(Some(u.roleId))
    case Aliquota => ValorInteiro(u.aliquota)
    case Telefone => ValorTexto(u.telefone)
    case Pais => ValorTexto(u.pais)
    case Uf => ValorTexto(u.uf)
    case Cidade => ValorTexto(u.cidade)
    case Cep => ValorTexto(u.cep)
    case Logradouro => ValorTexto(u.logradouro)
    case Numero => ValorTexto(u.numero)
    case Complemento => ValorTexto(u.complemento)
    case Bairro => ValorTexto(u.bairro)
    case Emite => ValorLogico(u.emite)
    case InscMunicipal => ValorTexto(u.inscMunicipal)
    case Atividades => ValorLista(Some(u.atividades))
  }

  /** One attribute assignment on a user row (activities are not written this way). */
  function ComValor(u: Usuario, f: CampoUsuario, v: Valor): (r: Usuario)
    requires f != Atividades && BemTipado(f, v) && (NaoNulo(f) ==> !Nulo(v))
    ensures CampoU(r, f) == v
    ensures forall g :: g != f ==> CampoU(r, g) == CampoU(u, g)
    ensures r.id == u.id
  {
    match f
    case Email => u.(email := v.texto.value)
    case RazaoSocial => u.(razaoSocial := v.texto.value)
    case CnpjCpf => u.(cnpjCpf := v.texto.value)
    case RoleId => u.(roleId := v.inteiro.value)
    case Aliquota => u.(aliquota := v.inteiro)
    case Telefone => u.(telefone := v.texto)
    case Pais => u.(pais := v.texto)
    case Uf => u.(uf := v.texto)
    case Cidade => u.(cidade := v.texto)
    case Cep => u.(cep := v.texto)
    case Logradouro => u.(logradouro := v.texto)
    case Numero => u.(numero := v.texto)
    case Complemento => u.(complemento := v.texto)
    case Bairro => u.(bairro := v.texto)
    case Emite => u.(emite := v.logico)
    case InscMunicipal => u.(inscMunicipal := v.texto)
  }

  /** What is left of the request after the permission filter: a non-admin cannot change role, e-mail or document. */
  function Permitidos(dados: map<CampoUsuario, Valor>, isAdmin: bool): (r: map<CampoUsuario, Valor>)
    ensures forall f :: f in r <==> f in dados && (isAdmin || (f != RoleId && f != CampoUsuario.Email && f != CnpjCpf))
    ensures forall f :: f in r ==> r[f] == dados[f]
  {
    if isAdmin then dados else dados - {RoleId, CampoUsuario.Email, CnpjCpf}
  }

  /** Some NOT NULL column is set to null: the commit would fail. */
  predicate ViolaNaoNulo(dados: map<CampoUsuario, Valor>) {
    exists f :: f in dados && NaoNulo(f) && Nulo(dados[f])
  }

  /**
   * The attribute-assignment loop: every column named in `dados` except the
   * activities takes its value, the others and the activities are kept.
   */
  method AplicarAtualizacao(u: Usuario, dados: map<CampoUsuario, Valor>) returns (r: Usuario)
    requires forall f :: f in dados ==> BemTipado(f, dados[f]) && (NaoNulo(f) ==> !Nulo(dados[f]))
    ensures r.id == u.id && r.atividades == u.atividades
    ensures forall f :: f != Atividades ==> CampoU(r, f) == if f in dados then dados[f] else CampoU(u, f)
  {
    r := u;
    var restantes := dados.Keys;
    while restantes != {}
      invariant restantes <= dados.Keys
      invariant r.id == u.id && r.atividades == u.atividades
      invariant forall f :: f != Atividades ==>
        CampoU(r, f) == if f in dados && f !in restantes then dados[f] else CampoU(u, f)
      decreases restantes
    {
      var f :| f in restantes;
      if f != Atividades {
        r := ComValor(r, f, dados[f]);
      }
      restantes := restantes - {f};
    }
  }

  /** Replacing the activities touches no other column. */
  lemma CamposSemAtividades(u: Usuario, l: seq<Atividade>)
    ensures forall f :: f != Atividades ==> CampoU(u.(atividades := l), f) == CampoU(u, f)
  {
  }

  /** The activity list after the update: replaced wholesale when a non-null list was sent, kept otherwise. */
  function AtividadesApos(u: Usuario, dados: map<CampoUsuario, Valor>): (r: seq<Atividade>)
    requires Atividades in dados ==> BemTipado(Atividades, dados[Atividades])
    ensures Atividades in dados && dados[Atividades].lista.Some? ==> r == dados[Atividades].lista.value
    ensures !(Atividades in dados && dados[Atividades].lista.Some?) ==> r == u.atividades
  {
    if Atividades in dados && dados[Atividades].lista.Some? then dados[Atividades].lista.value else u.atividades
  }

  /** Writes back an existing user row under its own id. */
  method GravarUsuario(db: Database, u: Usuario)
    requires db.Valid() && u.id in db.usuarios
    modifies db`usuarios
    ensures db.Valid()
    ensures db.usuarios == old(db.usuarios)[u.id := u]
  {
    db.usuarios := db.usuarios[u.id := u];
  }

  /**
   * The partial update of user `userId` by `atualId`: 404 for an unknown user,
   * 403 when a non-admin edits someone else; role, e-mail and document are
   * dropped from a non-admin's request; a null sent for a NOT NULL column fails
   * the commit with 500; otherwise exactly the columns sent change and the
   * activities are replaced when a list was sent.
   */
  method UpdateUser(db: Database, userId: Uuid, dados: map<CampoUsuario, Valor>, atualId: Uuid, isAdmin: bool)
    returns (r: Result<Usuario>)
    requires db.Valid()
    requires forall f :: f in dados ==> BemTipado(f, dados[f])
    modifies db`usuarios
    ensures db.Valid()
    ensures userId !in old(db.usuarios) ==> r == Err(NotFound)
    ensures userId in old(db.usuarios) && !isAdmin && userId != atualId ==> r == Err(Forbidden)
    ensures userId in old(db.usuarios) && (isAdmin || userId == atualId) ==>
      (r.Err? <==> ViolaNaoNulo(Permitidos(dados, isAdmin))) && (r.Err? ==> r.code == InternalServerError)
    ensures r.Err? ==> db.usuarios == old(db.usuarios)
    ensures r.Ok? ==>
      var efetivos := Permitidos(dados, isAdmin);
      && userId in old(db.usuarios)
      && r.value.id == userId
      && db.usuarios == old(db.usuarios)[userId := r.value]
      && (forall f :: f != Atividades ==>
            CampoU(r.value, f) == if f in efetivos then efetivos[f] else CampoU(old(db.usuarios)[userId], f))
      && r.value.atividades == AtividadesApos(old(db.usuarios)[userId], efetivos)
  {
    if userId !in db.usuarios {
      return Err(NotFound);
    }
    if !isAdmin && userId != atualId {
      return Err(Forbidden);
    }
    var efetivos := Permitidos(dados, isAdmin);
    if exists f :: f in efetivos && NaoNulo(f) && Nulo(efetivos[f]) {
      return Err(InternalServerError);
    }
    var antigo := db.usuarios[userId];
    var atualizado := AplicarAtualizacao(antigo, efetivos);
    CamposSemAtividades(atualizado, AtividadesApos(antigo, efetivos));
    atualizado := atualizado.(atividades := AtividadesApos(antigo, efetivos));
    GravarUsuario(db, atualizado);
    r := Ok(atualizado);
  }

  // ---------------------------------------------------------------------------
  // Deletion

  /** The clients owned by `userId`. */
  function ClientesDe(clientes: map<Id, Cliente>, userId: Uuid): set<Id> {
    set k | k in clientes && clientes[k].usuarioId == userId
  }

  /** The invoice table after `userId` goes: their invoices cascade away, the rest lose the clients that went with them. */
  function NotasSemUsuario(notas: map<Id, NotaFiscal>, clientes: map<Id, Cliente>, userId: Uuid): (r: map<Id, NotaFiscal>)
    ensures forall k :: k in r <==> k in notas && notas[k].usuarioId != userId
    ensures forall k :: k in r ==> r[k] == Desvincular(notas[k], ClientesDe(clientes, userId))
  {
    DesvincularClientes(map k | k in notas && notas[k].usuarioId != userId :: notas[k], ClientesDe(clientes, userId))
  }

  /** The client table after `userId` goes: their clients cascade away. */
  function ClientesSemUsuario(clientes: map<Id, Cliente>, userId: Uuid): (r: map<Id, Cliente>)
    ensures forall k :: k in r <==> k in clientes && clientes[k].usuarioId != userId
    ensures forall k :: k in r ==> r[k] == clientes[k]
  {
    map k | k in clientes && clientes[k].usuarioId != userId :: clientes[k]
  }

  /** The cascade leaves a consistent database: no remaining row points at the user or at a client that went. */
  lemma ExclusaoCoerente(notas: map<Id, NotaFiscal>, clientes: map<Id, Cliente>, usuarios: map<Uuid, Usuario>,
                         proximaNota: Id, proximoCliente: Id, userId: Uuid)
    requires NotasCoerentes(notas, clientes, usuarios, proximaNota)
    requires ClientesCoerentes(clientes, usuarios, proximoCliente)
    requires UsuariosCoerentes(usuarios)
    ensures NotasCoerentes(NotasSemUsuario(notas, clientes, userId), ClientesSemUsuario(clientes, userId), usuarios - {userId}, proximaNota)
    ensures ClientesCoerentes(ClientesSemUsuario(clientes, userId), usuarios - {userId}, proximoCliente)
    ensures UsuariosCoerentes(usuarios - {userId})
  {
    var n := NotasSemUsuario(notas, clientes, userId);
    var c := ClientesSemUsuario(clientes, userId);
    forall k | k in n && n[k].clienteId.Some?
      ensures n[k].clienteId.value in c
    {
      assert n[k] == Desvincular(notas[k], ClientesDe(clientes, userId));
    }
  }

  /**
   * Deletion of `userId` by administrator `adminId`: 400 for deleting oneself,
   * checked before the user is looked up; 404 for an unknown user; otherwise the
   * user goes, with their clients and invoices (ON DELETE CASCADE), and other
   * users' invoices that pointed at those clients lose them (ON DELETE SET NULL).
   */
  method DeleteUser(db: Database, userId: Uuid, adminId: Uuid) returns (r: Result<()>)
    requires db.Valid()
    modifies db`usuarios, db`clientes, db`notas
    ensures db.Valid()
    ensures userId == adminId ==> r == Err(BadRequest)
    ensures userId != adminId && userId !in old(db.usuarios) ==> r == Err(NotFound)
    ensures userId != adminId && userId in old(db.usuarios) ==> r.Ok?
    ensures r.Err? ==> db.usuarios == old(db.usuarios) && db.clientes == old(db.clientes) && db.notas == old(db.notas)
    ensures r.Ok? ==>
      && userId != adminId && userId in old(db.usuarios)
      && db.usuarios == old(db.usuarios) - {userId}
      && db.clientes == ClientesSemUsuario(old(db.clientes), userId)
      && db.notas == NotasSemUsuario(old(db.notas), old(db.clientes), userId)
  {
    if userId == adminId {
      return Err(BadRequest);
    }
    if userId !in db.usuarios {
      return Err(NotFound);
    }
    ExclusaoCoerente(db.notas, db.clientes, db.usuarios, db.proximaNota, db.proximoCliente, userId);
    db.notas := NotasSemUsuario(db.notas, db.clientes, userId);
    db.clientes := ClientesSemUsuario(db.clientes, userId);
    db.usuarios := db.usuarios - {userId};
    r := Ok(());
  }

  // ---------------------------------------------------------------------------
  // Batch tax-rate propagation

  /** The users the batch reads: those with a tax rate. */
  function ComAliquota(usuarios: map<Uuid, Usuario>): set<Uuid> {
    set u | u in usuarios && usuarios[u].aliquota.Some?
  }

  /** An invoice the batch rewrites: pending, its owner has a rate, and its own rate is null or different. */
  predicate Desatualizada(n: NotaFiscal, usuarios: map<Uuid, Usuario>) {
    n.statusId == Pendente && n.usuarioId in usuarios && usuarios[n.usuarioId].aliquota.Some?
    && n.aliquota != usuarios[n.usuarioId].aliquota
  }

  /** The invoice after the batch. */
  function Reajustada(n: NotaFiscal, usuarios: map<Uuid, Usuario>): NotaFiscal {
    if Desatualizada(n, usuarios) then n.(aliquota := usuarios[n.usuarioId].aliquota) else n
  }

  /**
   * The invoice table after the batch: every pending invoice of a user with a
   * tax rate carries that rate, any other invoice is unchanged, and nothing
   * but the rate ever changes.
   */
  function NotasAposLote(notas: map<Id, NotaFiscal>, usuarios: map<Uuid, Usuario>): (r: map<Id, NotaFiscal>)
    ensures r.Keys == notas.Keys
    ensures forall k :: k in notas && notas[k].statusId == Pendente && notas[k].usuarioId in usuarios
                        && usuarios[notas[k].usuarioId].aliquota.Some?
                        ==> r[k] == notas[k].(aliquota := usuarios[notas[k].usuarioId].aliquota)
    ensures forall k :: k in notas && !(notas[k].statusId == Pendente && notas[k].usuarioId in usuarios
                        && usuarios[notas[k].usuarioId].aliquota.Some?)
                        ==> r[k] == notas[k]
  {
    map k | k in notas :: Reajustada(notas[k], usuarios)
  }

  /** The invoices of the users in `donos` that the batch rewrites. */
  function DesatualizadasDe(notas: map<Id, NotaFiscal>, usuarios: map<Uuid, Usuario>, donos: set<Uuid>): set<Id> {
    set k | k in notas && notas[k].usuarioId in donos && Desatualizada(notas[k], usuarios)
  }

  /** The invoice table with only the invoices of `donos` rewritten. */
  function ReajustadasDe(notas: map<Id, NotaFiscal>, usuarios: map<Uuid, Usuario>, donos: set<Uuid>): map<Id, NotaFiscal> {
    map k | k in notas :: if notas[k].usuarioId in donos then Reajustada(notas[k], usuarios) else notas[k]
  }

  /** What the batch reports. */
  datatype RelatorioLote = RelatorioLote(totalUsuarios: nat, totalNotasAtualizadas: nat)

  /** The cardinality of a union of disjoint sets. */
  lemma UniaoDisjunta(a: set<Id>, b: set<Id>)
    requires a * b == {}
    ensures |a + b| == |a| + |b|
  {
  }

  /** Processing one more owner adds exactly that owner's outdated invoices to the count. */
  lemma {:induction false} PassoDoLote(notas: map<Id, NotaFiscal>, usuarios: map<Uuid, Usuario>, feitos: set<Uuid>, u: Uuid)
    requires u !in feitos
    ensures DesatualizadasDe(notas, usuarios, feitos + {u})
      == DesatualizadasDe(notas, usuarios, feitos) + DesatualizadasDe(notas, usuarios, {u})
    ensures DesatualizadasDe(notas, usuarios, feitos) * DesatualizadasDe(notas, usuarios, {u}) == {}
    ensures |DesatualizadasDe(notas, usuarios, feitos + {u})|
      == |DesatualizadasDe(notas, usuarios, feitos)| + |DesatualizadasDe(notas, usuarios, {u})|
  {
    var a := DesatualizadasDe(notas, usuarios, feitos);
    var b := DesatualizadasDe(notas, usuarios, {u});
    UniaoDisjunta(a, b);
  }

  /** The rows of `u` the batch's UPDATE matches: pending, with a rate that is null or differs from `taxa`. */
  function Alvo(notas: map<Id, NotaFiscal>, u: Uuid, taxa: Option<int>): set<Id> {
    set k | k in notas && notas[k].usuarioId == u && notas[k].statusId == Pendente && notas[k].aliquota != taxa
  }

  /** The UPDATE that writes `taxa` on the rows of `alvo`; nothing but their rate changes. */
  function GravarAliquota(notas: map<Id, NotaFiscal>, alvo: set<Id>, taxa: Option<int>): (r: map<Id, NotaFiscal>)
    ensures r.Keys == notas.Keys
    ensures forall k :: k in r ==> r[k] == if k in alvo then notas[k].(aliquota := taxa) else notas[k]
  {
    map k | k in notas :: if k in alvo then notas[k].(aliquota := taxa) else notas[k]
  }

  /** The batch keeps every invoice's id and foreign keys, so the table stays consistent with the rest of the database. */
  lemma GravarPreservaLote(notas: map<Id, NotaFiscal>, clientes: map<Id, Cliente>, usuarios: map<Uuid, Usuario>, proxima: Id)
    requires NotasCoerentes(notas, clientes, usuarios, proxima)
    ensures NotasCoerentes(NotasAposLote(notas, usuarios), clientes, usuarios, proxima)
  {
  }

  /** One round of the batch, for an owner not yet processed, matches that owner's outdated invoices and takes the table one owner further. */
  lemma {:induction false} PassoReajuste(inicial: map<Id, NotaFiscal>, usuarios: map<Uuid, Usuario>, feitos: set<Uuid>, u: Uuid)
    requires u !in feitos && u in usuarios && usuarios[u].aliquota.Some?
    ensures var atual := ReajustadasDe(inicial, usuarios, feitos);
      && Alvo(atual, u, usuarios[u].aliquota) == DesatualizadasDe(inicial, usuarios, {u})
      && GravarAliquota(atual, Alvo(atual, u, usuarios[u].aliquota), usuarios[u].aliquota)
         == ReajustadasDe(inicial, usuarios, feitos + {u})
  {
    var atual := ReajustadasDe(inicial, usuarios, feitos);
    var alvo := Alvo(atual, u, usuarios[u].aliquota);
    forall k | k in inicial && inicial[k].usuarioId == u
      ensures atual[k] == inicial[k]
    {
    }
    assert alvo == DesatualizadasDe(inicial, usuarios, {u});
    var depois := GravarAliquota(atual, alvo, usuarios[u].aliquota);
    var esperado := ReajustadasDe(inicial, usuarios, feitos + {u});
    forall k | k in depois
      ensures depois[k] == esperado[k]
    {
    }
    assert depois == esperado;
  }

  /** Once every owner with a rate is processed, the table and the count are those of the whole batch. */
  lemma {:induction false} LoteCompleto(inicial: map<Id, NotaFiscal>, usuarios: map<Uuid, Usuario>)
    ensures DesatualizadasDe(inicial, usuarios, ComAliquota(usuarios)) == DesatualizadasDe(inicial, usuarios, usuarios.Keys)
    ensures ReajustadasDe(inicial, usuarios, ComAliquota(usuarios)) == NotasAposLote(inicial, usuarios)
  {
    var a := ReajustadasDe(inicial, usuarios, ComAliquota(usuarios));
    var b := NotasAposLote(inicial, usuarios);
    forall k | k in a
      ensures a[k] == b[k]
    {
    }
    assert a == b;
  }

  /**
   * The batch: for every user with a tax rate, write that rate on their pending
   * invoices whose rate is null or different, counting the rows written. Reports
   * the number of users read and the number of invoices rewritten.
   */
  method AtualizarAliquotasNotasEmLote(db: Database) returns (rel: RelatorioLote)
    requires db.Valid()
    modifies db`notas
    ensures db.Valid()
    ensures db.notas == NotasAposLote(old(db.notas), db.usuarios)
    ensures rel.totalUsuarios == |ComAliquota(db.usuarios)|
    ensures rel.totalNotasAtualizadas == |DesatualizadasDe(old(db.notas), db.usuarios, db.usuarios.Keys)|
  {
    var usuarios := ComAliquota(db.usuarios);
    var restantes := usuarios;
    ghost var feitos: set<Uuid> := {};
    // the UPDATEs run inside one transaction, committed after the loop
    var inicial := db.notas;
    var notas := inicial;
    var total := 0;
    while restantes != {}
      invariant restantes <= usuarios && feitos == usuarios - restantes
      invariant notas == ReajustadasDe(inicial, db.usuarios, feitos)
      invariant total == |DesatualizadasDe(inicial, db.usuarios, feitos)|
      decreases restantes
    {
      var u :| u in restantes;
      var taxa := db.usuarios[u].aliquota;
      var alvo := Alvo(notas, u, taxa);
      PassoReajuste(inicial, db.usuarios, feitos, u);
      PassoDoLote(inicial, db.usuarios, feitos, u);
      notas := GravarAliquota(notas, alvo, taxa);
      total := total + |alvo|;
      feitos := feitos + {u};
      restantes := restantes - {u};
    }
    assert feitos == usuarios;
    LoteCompleto(inicial, db.usuarios);
    GravarPreservaLote(inicial, db.clientes, db.usuarios, db.proximaNota);
    db.notas := notas;
    rel := RelatorioLote(|usuarios|, total);
  }

  /** A second batch right after the first finds nothing to rewrite and changes nothing. */
  lemma {:induction false} LoteIdempotente(notas: map<Id, NotaFiscal>, usuarios: map<Uuid, Usuario>)
    ensures DesatualizadasDe(NotasAposLote(notas, usuarios), usuarios, usuarios.Keys) == {}
    ensures NotasAposLote(NotasAposLote(notas, usuarios), usuarios) == NotasAposLote(notas, usuarios)
  {
    var depois := NotasAposLote(notas, usuarios);
    forall k | k in depois ensures !Desatualizada(depois[k], usuarios) {
      assert depois[k] == Reajustada(notas[k], usuarios);
    }
  }
}
