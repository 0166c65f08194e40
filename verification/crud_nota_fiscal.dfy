/**
 * The invoice operations on the store: the owners' and administrators' listings,
 * the unguarded status write, approval, rejection, emission at the municipal
 * service and the owner's edit. Every status write agrees with
 * NotaStatus.Transicao.
 */
module CrudNotaFiscal {
  import opened Outcomes
  import opened Models
  import opened Nfse
  import opened NotaStatus
  import opened Store
  import opened CrudCliente
  import opened CnaeListaServicos

  // ---------------------------------------------------------------------------
  // Listings

  /** An invoice as listed, with the description of its activity. */
  datatype NotaListada = NotaListada(nota: NotaFiscal, descCnae: Option<string>)

  /** Activity `i` has code `cod` (an absent code matches no activity). */
  predicate TemCodigo(atividades: seq<Atividade>, cod: Option<string>, i: int)
    requires 0 <= i < |atividades|
  {
    Some(atividades[i].codCnae) == cod
  }

  /**
   * The description a code-to-description dictionary built from `atividades`
   * gives for `cod`: later entries overwrite earlier ones, so the last activity
   * with that code wins.
   */
  function DescUltima(atividades: seq<Atividade>, cod: Option<string>): (r: Option<string>)
    ensures r.None? <==> forall i :: 0 <= i < |atividades| ==> !TemCodigo(atividades, cod, i)
    ensures r.Some? ==>
      exists i :: 0 <= i < |atividades| && TemCodigo(atividades, cod, i)
        && atividades[i].descCnae == r.value
        && forall j :: i < j < |atividades| ==> !TemCodigo(atividades, cod, j)
  {
    if atividades == [] then None
    else
      var n := |atividades| - 1;
      if TemCodigo(atividades, cod, n) then Some(atividades[n].descCnae)
      else
        var r := DescUltima(atividades[..n], cod);
        assert forall i :: 0 <= i < n ==> TemCodigo(atividades[..n], cod, i) == TemCodigo(atividades, cod, i);
        r
  }

  /** The description of the first activity with code `cod`, as a linear search finds it. */
  function DescPrimeira(atividades: seq<Atividade>, cod: Option<string>): (r: Option<string>)
    ensures r.None? <==> forall i :: 0 <= i < |atividades| ==> !TemCodigo(atividades, cod, i)
    ensures r.Some? ==>
      exists i :: 0 <= i < |atividades| && TemCodigo(atividades, cod, i)
        && atividades[i].descCnae == r.value
        && forall j :: 0 <= j < i ==> !TemCodigo(atividades, cod, j)
  {
    if atividades == [] then None
    else if TemCodigo(atividades, cod, 0) then Some(atividades[0].descCnae)
    else
      var r := DescPrimeira(atividades[1..], cod);
      forall i | 1 <= i < |atividades|
        ensures TemCodigo(atividades[1..], cod, i - 1) == TemCodigo(atividades, cod, i)
      {
        assert atividades[1..][i - 1] == atividades[i];
      }
      assert r.Some? ==>
        exists i :: 0 <= i < |atividades| && TemCodigo(atividades, cod, i)
          && atividades[i].descCnae == r.value
          && forall j :: 0 <= j < i ==> !TemCodigo(atividades, cod, j)
      by {
        if r.Some? {
          var i :| 0 <= i < |atividades[1..]| && TemCodigo(atividades[1..], cod, i)
            && atividades[1..][i].descCnae == r.value
            && forall j :: 0 <= j < i ==> !TemCodigo(atividades[1..], cod, j);
          assert TemCodigo(atividades, cod, i + 1);
          forall j | 0 <= j < i + 1 ensures !TemCodigo(atividades, cod, j) {
            if j > 0 {
              assert !TemCodigo(atividades[1..], cod, j - 1);
            }
          }
        }
      }
      r
  }

  /** When no code is registered twice the two listings agree on every description. */
  lemma DescSemDuplicatas(atividades: seq<Atividade>, cod: Option<string>)
    requires forall i, j :: 0 <= i < j < |atividades| ==> atividades[i].codCnae != atividades[j].codCnae
    ensures DescUltima(atividades, cod) == DescPrimeira(atividades, cod)
  {
    var u := DescUltima(atividades, cod);
    var p := DescPrimeira(atividades, cod);
    if u.Some? {
      var i :| 0 <= i < |atividades| && TemCodigo(atividades, cod, i) && atividades[i].descCnae == u.value
        && forall j :: i < j < |atividades| ==> !TemCodigo(atividades, cod, j);
      var k :| 0 <= k < |atividades| && TemCodigo(atividades, cod, k) && atividades[k].descCnae == p.value
        && forall j :: 0 <= j < k ==> !TemCodigo(atividades, cod, j);
      assert i == k;
    }
  }

  /** With a code registered twice the owner's listing shows the second description and the admin's the first. */
  lemma DescDuplicadaDiverge()
    ensures var a := [Atividade("6201501", "Desenvolvimento"), Atividade("6201501", "Consultoria")];
      DescUltima(a, Some("6201501")) == Some("Consultoria") && DescPrimeira(a, Some("6201501")) == Some("Desenvolvimento")
  {
  }

  /** The invoices the owner's listing selects: theirs, except the rejected ones. */
  function SelecaoDoDono(notas: map<Id, NotaFiscal>, usuarioId: Uuid): set<Id> {
    set k | k in notas && notas[k].usuarioId == usuarioId && !OcultaDoDono(notas[k].statusId)
  }

  /** The invoices the administrative listing selects: all for an administrator, the caller's own otherwise. */
  function SelecaoAdmin(notas: map<Id, NotaFiscal>, atual: Usuario): set<Id> {
    if atual.roleId == Admin then notas.Keys else set k | k in notas && notas[k].usuarioId == atual.id
  }

  /** `r` lists exactly the invoices `ids` of `notas`, each once, as stored. */
  ghost predicate ListaExatamente(r: seq<NotaListada>, notas: map<Id, NotaFiscal>, ids: set<Id>) {
    && (forall i :: 0 <= i < |r| ==> r[i].nota.id in ids && r[i].nota.id in notas && r[i].nota == notas[r[i].nota.id])
    && (forall i, j :: 0 <= i < j < |r| ==> r[i].nota.id != r[j].nota.id)
    && (forall k :: k in ids ==> Listada(r, k))
  }

  /** Invoice `k` appears in the listing `r`. */
  ghost predicate Listada(r: seq<NotaListada>, k: Id) {
    exists i :: 0 <= i < |r| && r[i].nota.id == k
  }

  /** Appending an invoice not yet listed extends an exact listing by that invoice. */
  lemma ListaCresce(r: seq<NotaListada>, notas: map<Id, NotaFiscal>, feitos: set<Id>, k: Id, x: NotaListada)
    requires ListaExatamente(r, notas, feitos)
    requires k in notas && k !in feitos && x.nota == notas[k] && x.nota.id == k
    ensures ListaExatamente(r + [x], notas, feitos + {k})
  {
    var s := r + [x];
    forall j | j in feitos + {k} ensures Listada(s, j) {
      if j == k {
        assert s[|s| - 1].nota.id == j;
      } else {
        var i :| 0 <= i < |r| && r[i].nota.id == j;
        assert s[i] == r[i];
      }
    }
  }

  /**
   * The owner's listing: every invoice of `usuarioId` that is not rejected, each
   * with the description its owner's activities give its code, the last
   * duplicate winning.
   */
  method GetNotasByUsuario(db: Database, usuarioId: Uuid) returns (r: seq<NotaListada>)
    requires db.Valid()
    ensures ListaExatamente(r, db.notas, SelecaoDoDono(db.notas, usuarioId))
    ensures forall i :: 0 <= i < |r| ==> r[i].nota.usuarioId == usuarioId && r[i].nota.statusId != Recusada
    ensures forall i :: 0 <= i < |r| ==>
      r[i].nota.usuarioId in db.usuarios
        && r[i].descCnae == DescUltima(db.usuarios[r[i].nota.usuarioId].atividades, r[i].nota.codCnae)
  {
    var ids := SelecaoDoDono(db.notas, usuarioId);
    var restantes := ids;
    r := [];
    while restantes != {}
      invariant restantes <= ids
      invariant ListaExatamente(r, db.notas, ids - restantes)
      invariant forall i :: 0 <= i < |r| ==> r[i].nota.usuarioId == usuarioId && r[i].nota.statusId != Recusada
      invariant forall i :: 0 <= i < |r| ==>
        r[i].nota.usuarioId in db.usuarios
        && r[i].descCnae == DescUltima(db.usuarios[r[i].nota.usuarioId].atividades, r[i].nota.codCnae)
      decreases restantes
    {
      var k :| k in restantes;
      var nota := db.notas[k];
      var desc := DescUltima(db.usuarios[usuarioId].atividades, nota.codCnae);
      assert db.notas[k].id == k;
      ListaCresce(r, db.notas, ids - restantes, k, NotaListada(nota, desc));
      assert ids - (restantes - {k}) == (ids - restantes) + {k};
      r := r + [NotaListada(nota, desc)];
      restantes := restantes - {k};
    }
  }

  /**
   * The administrative listing: every invoice for an administrator, the caller's
   * own otherwise, rejected ones included, each with the description of the first
   * activity of its owner that has its code.
   */
  method GetTodasNotas(db: Database, atual: Usuario) returns (r: seq<NotaListada>)
    requires db.Valid()
    ensures ListaExatamente(r, db.notas, SelecaoAdmin(db.notas, atual))
    ensures atual.roleId != Admin ==> forall i :: 0 <= i < |r| ==> r[i].nota.usuarioId == atual.id
    ensures forall i :: 0 <= i < |r| ==>
      r[i].nota.usuarioId in db.usuarios
      && r[i].descCnae == DescPrimeira(db.usuarios[r[i].nota.usuarioId].atividades, r[i].nota.codCnae)
  {
    var ids := SelecaoAdmin(db.notas, atual);
    var restantes := ids;
    r := [];
    while restantes != {}
      invariant restantes <= ids
      invariant ListaExatamente(r, db.notas, ids - restantes)
      invariant forall i :: 0 <= i < |r| ==>
        r[i].nota.usuarioId in db.usuarios
        && r[i].descCnae == DescPrimeira(db.usuarios[r[i].nota.usuarioId].atividades, r[i].nota.codCnae)
      decreases restantes
    {
      var k :| k in restantes;
      var nota := db.notas[k];
      var desc := DescPrimeira(db.usuarios[nota.usuarioId].atividades, nota.codCnae);
      assert db.notas[k].id == k;
      ListaCresce(r, db.notas, ids - restantes, k, NotaListada(nota, desc));
      assert ids - (restantes - {k}) == (ids - restantes) + {k};
      r := r + [NotaListada(nota, desc)];
      restantes := restantes - {k};
    }
  }

  // ---------------------------------------------------------------------------
  // Creation

  /** The columns the creation route supplies; the rest of the row starts NULL. */
  datatype NotaFiscalDados = NotaFiscalDados(
    usuarioId: Uuid,
    clienteId: Option<Id>,
    codCnae: Option<string>,
    valorTotal: int,
    descricao: Option<string>,
    statusId: int,
    aliquota: Option<int>,
    codigoListaServico: Option<string>)

  /** Inserts an invoice row built from `dados` under the next id. */
  method CreateNotaFiscal(db: Database, dados: NotaFiscalDados) returns (r: NotaFiscal)
    requires db.Valid() && dados.usuarioId in db.usuarios
    requires dados.clienteId.Some? ==> dados.clienteId.value in db.clientes
    modifies db`notas, db`proximaNota
    ensures db.Valid()
    ensures r.id == old(db.proximaNota) && r.id !in old(db.notas)
    ensures r == NotaFiscal(r.id, dados.usuarioId, dados.clienteId, None, None, dados.valorTotal, dados.descricao,
      dados.statusId, dados.codCnae, dados.aliquota, None, dados.codigoListaServico)
    ensures db.notas == old(db.notas)[r.id := r] && db.proximaNota == old(db.proximaNota) + 1
  {
    r := NotaFiscal(db.proximaNota, dados.usuarioId, dados.clienteId, None, None, dados.valorTotal, dados.descricao,
      dados.statusId, dados.codCnae, dados.aliquota, None, dados.codigoListaServico);
    db.notas := db.notas[r.id := r];
    db.proximaNota := db.proximaNota + 1;
  }

  // ---------------------------------------------------------------------------
  // Status writes

  /** The unguarded status write: any status on any existing invoice; None for an unknown id. */
  method UpdateStatusNota(db: Database, notaId: int, novoStatus: int) returns (r: Option<NotaFiscal>)
    requires db.Valid()
    modifies db`notas
    ensures db.Valid()
    ensures r.None? <==> notaId !in old(db.notas)
    ensures r.None? ==> db.notas == old(db.notas)
    ensures r.Some? ==>
      && Transicao(DefinirStatus(novoStatus), old(db.notas)[notaId].statusId) == Some(r.value.statusId)
      && r.value == old(db.notas)[notaId].(statusId := novoStatus)
      && db.notas == old(db.notas)[notaId := r.value]
  {
    if notaId !in db.notas {
      return None;
    }
    var nota := db.notas[notaId].(statusId := novoStatus);
    db.notas := db.notas[notaId := nota];
    r := Some(nota);
  }

  /**
   * Approval: None for an unknown id, 400 unless the invoice is pending, and
   * otherwise the status becomes Aprovada with nothing else changed.
   */
  method AprovarNotaFiscal(db: Database, notaId: int) returns (r: Result<Option<NotaFiscal>>)
    requires db.Valid()
    modifies db`notas
    ensures db.Valid()
    ensures notaId !in old(db.notas) ==> r == Ok(None)
    ensures notaId in old(db.notas) && old(db.notas)[notaId].statusId != Pendente ==> r == Err(BadRequest)
    ensures r.Err? || r == Ok(None) ==> db.notas == old(db.notas)
    ensures r.Ok? && r.value.Some? ==>
      && notaId in old(db.notas)
      && Transicao(Aprovar, old(db.notas)[notaId].statusId) == Some(r.value.value.statusId)
      && r.value.value == old(db.notas)[notaId].(statusId := Aprovada)
      && db.notas == old(db.notas)[notaId := r.value.value]
    ensures notaId in old(db.notas) && old(db.notas)[notaId].statusId == Pendente ==> r.Ok? && r.value.Some?
  {
    if notaId !in db.notas {
      return Ok(None);
    }
    var nota := db.notas[notaId];
    if nota.statusId != Pendente {
      return Err(BadRequest);
    }
    nota := nota.(statusId := Aprovada);
    db.notas := db.notas[notaId := nota];
    r := Ok(Some(nota));
  }

  /**
   * Rejection: an unknown id fails with 500 (the status of a missing row is
   * read); 400 unless the invoice is pending; otherwise its status becomes
   * whatever the caller passed and the reason is stored.
   */
  method RecusarNotaFiscal(db: Database, notaId: int, novoStatus: int, motivo: string) returns (r: Result<NotaFiscal>)
    requires db.Valid()
    modifies db`notas
    ensures db.Valid()
    ensures notaId !in old(db.notas) ==> r == Err(InternalServerError)
    ensures notaId in old(db.notas) ==> (r.Err? <==> old(db.notas)[notaId].statusId != Pendente)
    ensures notaId in old(db.notas) && r.Err? ==> r.code == BadRequest
    ensures r.Err? ==> db.notas == old(db.notas)
    ensures r.Ok? ==>
      && notaId in old(db.notas)
      && Transicao(Recusar(novoStatus), old(db.notas)[notaId].statusId) == Some(r.value.statusId)
      && r.value == old(db.notas)[notaId].(statusId := novoStatus, descMotivo := Some(motivo))
      && db.notas == old(db.notas)[notaId := r.value]
  {
    if notaId !in db.notas {
      return Err(InternalServerError);
    }
    var nota := db.notas[notaId];
    if nota.statusId != Pendente {
      return Err(BadRequest);
    }
    nota := nota.(statusId := novoStatus, descMotivo := Some(motivo));
    db.notas := db.notas[notaId := nota];
    r := Ok(nota);
  }

  // ---------------------------------------------------------------------------
  // Emission

  /**
   * The checks before emission, in order: unknown invoice 404, not pending 400,
   * an issuer (role 2) who does not own it or whose `emite` flag is false 403,
   * no client 400. None when every check passes.
   */
  function BloqueioEmissao(db: Database, notaId: int, atual: Usuario): (r: Option<int>)
    reads db
    ensures r.Some? ==> r.value in {NotFound, BadRequest, Forbidden}
    ensures r.None? ==> notaId in db.notas && db.notas[notaId].statusId == Pendente && db.notas[notaId].clienteId.Some?
    ensures r == Some(Forbidden) ==> atual.roleId == Emissor
    // each check in its turn, whoever the caller is
    ensures notaId !in db.notas ==> r == Some(NotFound)
    ensures notaId in db.notas && db.notas[notaId].statusId != Pendente ==> r == Some(BadRequest)
    ensures notaId in db.notas && db.notas[notaId].statusId == Pendente ==>
      (r == Some(Forbidden) <==>
        atual.roleId == Emissor && (db.notas[notaId].usuarioId != atual.id || atual.emite == Some(false)))
    ensures notaId in db.notas && db.notas[notaId].statusId == Pendente && r != Some(Forbidden) ==>
      (r.None? <==> db.notas[notaId].clienteId.Some?) && (r.Some? ==> r == Some(BadRequest))
  {
    if notaId !in db.notas then Some(NotFound)
    else
      var nota := db.notas[notaId];
      if nota.statusId != Pendente then Some(BadRequest)
      else if atual.roleId == Emissor && (nota.usuarioId != atual.id || atual.emite == Some(false)) then Some(Forbidden)
      else if nota.clienteId.None? then Some(BadRequest)
      else None
  }

  /** Only an issuer is ever refused for ownership or the `emite` flag: an administrator emits any pending invoice with a client. */
  lemma AdminEmiteQualquerPendente(db: Database, notaId: int, atual: Usuario)
    requires atual.roleId == Admin
    requires notaId in db.notas && db.notas[notaId].statusId == Pendente && db.notas[notaId].clienteId.Some?
    ensures BloqueioEmissao(db, notaId, atual) == None
  {
  }

  /** An issuer passes the checks only for their own invoice, and not when `emite` is false; an absent flag does not block. */
  lemma EmissorSoPropria(db: Database, notaId: int, atual: Usuario)
    requires atual.roleId == Emissor && BloqueioEmissao(db, notaId, atual).None?
    ensures db.notas[notaId].usuarioId == atual.id && atual.emite != Some(false)
  {
  }

  /** An approved invoice is refused with 400: approval makes emission impossible. */
  lemma AprovadaNaoEmite(db: Database, notaId: int, atual: Usuario)
    requires notaId in db.notas && db.notas[notaId].statusId == Aprovada
    ensures BloqueioEmissao(db, notaId, atual) == Some(BadRequest)
  {
  }

  /** The request for an invoice whose owner and client exist. */
  function PedidoPara(db: Database, nota: NotaFiscal): (r: Option<PedidoNfse>)
    reads db
    requires nota.usuarioId in db.usuarios && nota.clienteId.Some? && nota.clienteId.value in db.clientes
    ensures r.None? <==> nota.aliquota.None?
  {
    MontarPedido(nota, db.usuarios[nota.usuarioId], db.clientes[nota.clienteId.value])
  }

  /**
   * Emission: after the checks the request goes to the service (`remoto`); any
   * failure, including an invoice without a tax rate that cannot be written into
   * the request, is 502 and leaves the invoice pending. Only an accepted answer
   * moves it to Emitida.
   */
  method EmitirNotaFinalizada(db: Database, notaId: int, atual: Usuario, remoto: PedidoNfse -> RespostaSoap)
    returns (r: Result<NotaFiscal>)
    requires db.Valid() && atual.id in db.usuarios && db.usuarios[atual.id] == atual
    modifies db`notas
    ensures db.Valid()
    ensures r.Err? ==> db.notas == old(db.notas)
    ensures old(BloqueioEmissao(db, notaId, atual)).Some? ==> r == Err(old(BloqueioEmissao(db, notaId, atual)).value)
    ensures old(BloqueioEmissao(db, notaId, atual)).None? ==>
      var pedido := old(PedidoPara(db, db.notas[notaId]));
      && (r.Ok? <==> pedido.Some? && ResultadoEmissao(remoto(pedido.value)).Ok?)
      && (r.Err? ==> r.code == BadGateway)
    ensures r.Ok? ==>
      && notaId in old(db.notas)
      && Transicao(Emitir, old(db.notas)[notaId].statusId) == Some(r.value.statusId)
      && r.value == old(db.notas)[notaId].(statusId := Emitida)
      && db.notas == old(db.notas)[notaId := r.value]
  {
    var bloqueio := BloqueioEmissao(db, notaId, atual);
    if bloqueio.Some? {
      return Err(bloqueio.value);
    }
    var nota := db.notas[notaId];
    var pedido := PedidoPara(db, nota);
    if pedido.None? {
      return Err(BadGateway);
    }
    var resultado := ResultadoEmissao(remoto(pedido.value));
    if resultado.Err? {
      return Err(BadGateway);
    }
    nota := nota.(statusId := Emitida);
    db.notas := db.notas[notaId := nota];
    r := Ok(nota);
  }

  // ---------------------------------------------------------------------------
  // Edit

  /** The client columns every request body carries; the others are written only when the request set them. */
  predicate Obrigatorio(f: CampoCliente) {
    !f.Email? && !f.Telefone? && !f.Complemento?
  }

  /** The value the request body gives a client column. */
  function ValorCampo(dados: NotaFiscalCreate, f: CampoCliente): Option<string> {
    match f
    case RazaoSocial => Some(dados.razaoSocial)
    case CpfCnpj => Some(dados.cpfCnpj)
    case Email => dados.email
    case Telefone => dados.telefone
    case Pais => Some(dados.pais)
    case Uf => Some(dados.uf)
    case Cidade => Some(dados.cidade)
    case Cep => Some(dados.cep)
    case Logradouro => Some(dados.logradouro)
    case Numero => Some(dados.numero)
    case Complemento => dados.complemento
    case Bairro => Some(dados.bairro)
  }

  const TodosCampos: set<CampoCliente> :=
    {RazaoSocial, CpfCnpj, Email, Telefone, Pais, Uf, Cidade, Cep, Logradouro, Numero, Complemento, Bairro}

  lemma TodosCamposCompleto(f: CampoCliente)
    ensures f in TodosCampos
  {
    match f
    case RazaoSocial =>
    case CpfCnpj =>
    case Email =>
    case Telefone =>
    case Pais =>
    case Uf =>
    case Cidade =>
    case Cep =>
    case Logradouro =>
    case Numero =>
    case Complemento =>
    case Bairro =>
  }

  /** The client columns the request explicitly set, with their values. */
  function CamposEnviados(dados: NotaFiscalCreate): (r: map<CampoCliente, Option<string>>)
    ensures forall f :: f in r <==> Obrigatorio(f) || f in dados.enviados
    ensures forall f :: f in r ==> r[f] == ValorCampo(dados, f)
    ensures RazaoSocial in r && r[RazaoSocial] == Some(dados.razaoSocial)
  {
    forall f: CampoCliente ensures f in TodosCampos {
      TodosCamposCompleto(f);
    }
    map f | f in TodosCampos && (Obrigatorio(f) || f in dados.enviados) :: ValorCampo(dados, f)
  }

  /** The client a request body describes, every column taken from it (unset optional ones absent). */
  function ClienteDoPedido(dados: NotaFiscalCreate): (r: ClienteCreate)
    ensures r.razaoSocial == dados.razaoSocial && r.cpfCnpj == Some(dados.cpfCnpj)
    ensures r.email == dados.email && r.telefone == dados.telefone && r.complemento == dados.complemento
    ensures r.pais == Some(dados.pais) && r.uf == Some(dados.uf) && r.cidade == Some(dados.cidade)
    ensures r.cep == Some(dados.cep) && r.logradouro == Some(dados.logradouro)
    ensures r.numero == Some(dados.numero) && r.bairro == Some(dados.bairro)
  {
    ClienteCreate(dados.razaoSocial, Some(dados.cpfCnpj), dados.email, dados.telefone, Some(dados.pais),
      Some(dados.uf), Some(dados.cidade), Some(dados.cep), Some(dados.logradouro), Some(dados.numero),
      dados.complemento, Some(dados.bairro))
  }

  /** `depois` is `antes` after the edit's attribute loop and the ownership reassignment. */
  ghost predicate ClienteEditado(antes: Cliente, depois: Cliente, dados: NotaFiscalCreate, usuarioId: Uuid) {
    && depois.id == antes.id
    && depois.usuarioId == usuarioId
    && forall f :: Campo(depois, f) == if f in CamposEnviados(dados) then CamposEnviados(dados)[f] else Campo(antes, f)
  }

  /** Reassigning the owner touches no writable column. */
  lemma CamposSemDono(c: Cliente, usuarioId: Uuid)
    ensures forall f :: Campo(c.(usuarioId := usuarioId), f) == Campo(c, f)
  {
  }

  /** Writing a client row under its own id, below the sequence and with an existing owner, keeps the table consistent. */
  lemma ClienteGravadoCoerente(clientes: map<Id, Cliente>, usuarios: map<Uuid, Usuario>, proximo: Id, novoProximo: Id, c: Cliente)
    requires ClientesCoerentes(clientes, usuarios, proximo) && proximo <= novoProximo
    requires 0 < c.id < novoProximo && c.usuarioId in usuarios
    ensures ClientesCoerentes(clientes[c.id := c], usuarios, novoProximo)
  {
  }

  /**
   * The client table after an edit of an invoice whose client is `atual`: that
   * client updated from the request and handed to the editor, or, when the invoice
   * has no client, a new client built from the request under the next id.
   */
  method ClientesAposEdicao(clientes: map<Id, Cliente>, usuarios: map<Uuid, Usuario>, proximo: Id, atual: Option<Id>,
                            usuarioId: Uuid, dados: NotaFiscalCreate)
    returns (novos: map<Id, Cliente>, novoProximo: Id, clienteId: Id)
    requires atual.Some? ==> atual.value in clientes
    requires ClientesCoerentes(clientes, usuarios, proximo) && 0 < proximo && usuarioId in usuarios
    ensures ClientesCoerentes(novos, usuarios, novoProximo)
    ensures clienteId in novos && novos[clienteId].id == clienteId && novos[clienteId].usuarioId == usuarioId
    ensures clientes.Keys <= novos.Keys
    ensures forall k :: k in novos && k != clienteId ==> k in clientes && novos[k] == clientes[k]
    ensures atual.Some? ==>
      && clienteId == atual.value && novoProximo == proximo && novos.Keys == clientes.Keys
      && ClienteEditado(clientes[clienteId], novos[clienteId], dados, usuarioId)
    ensures atual.None? ==>
      && clienteId == proximo && clienteId !in clientes && novoProximo == proximo + 1
      && novos == clientes[clienteId := NovoCliente(clienteId, usuarioId, ClienteDoPedido(dados))]
  {
    if atual.Some? {
      clienteId := atual.value;
      var cliente := AplicarCampos(clientes[clienteId], CamposEnviados(dados));
      CamposSemDono(cliente, usuarioId);
      cliente := cliente.(usuarioId := usuarioId);
      novoProximo := proximo;
      ClienteGravadoCoerente(clientes, usuarios, proximo, novoProximo, cliente);
      novos := clientes[clienteId := cliente];
    } else {
      clienteId := proximo;
      novoProximo := proximo + 1;
      var cliente := NovoCliente(clienteId, usuarioId, ClienteDoPedido(dados));
      ClienteGravadoCoerente(clientes, usuarios, proximo, novoProximo, cliente);
      novos := clientes[clienteId := cliente];
    }
  }

  /** Rewriting one invoice keeps the table consistent when its owner and client exist and the client table only grew. */
  lemma NotaEditadaCoerente(notas: map<Id, NotaFiscal>, clientes: map<Id, Cliente>, novos: map<Id, Cliente>,
                            usuarios: map<Uuid, Usuario>, proxima: Id, notaId: Id, nota: NotaFiscal)
    requires NotasCoerentes(notas, clientes, usuarios, proxima)
    requires clientes.Keys <= novos.Keys
    requires notaId in notas && nota.id == notaId && nota.usuarioId in usuarios
    requires nota.clienteId.Some? ==> nota.clienteId.value in novos
    ensures NotasCoerentes(notas[notaId := nota], novos, usuarios, proxima)
  {
  }

  /** Commits an edit: the rewritten invoice and the new client table. */
  method GravarEdicao(db: Database, notaId: Id, nota: NotaFiscal, clientes: map<Id, Cliente>, proximo: Id)
    requires db.Valid() && notaId in db.notas && nota.id == notaId && nota.usuarioId in db.usuarios
    requires ClientesCoerentes(clientes, db.usuarios, proximo) && 0 < proximo && db.clientes.Keys <= clientes.Keys
    requires nota.clienteId.Some? ==> nota.clienteId.value in clientes
    modifies db`notas, db`clientes, db`proximoCliente
    ensures db.Valid()
    ensures db.notas == old(db.notas)[notaId := nota] && db.clientes == clientes && db.proximoCliente == proximo
  {
    NotaEditadaCoerente(db.notas, db.clientes, clientes, db.usuarios, db.proximaNota, notaId, nota);
    db.clientes := clientes;
    db.proximoCliente := proximo;
    db.notas := db.notas[notaId := nota];
  }

  /**
   * The owner's edit. An invoice that is not the caller's gives None and nothing
   * changes. Otherwise its client is updated from the request (or created when the
   * invoice has none), the CNAE code, total and description are overwritten, the
   * status goes back to pending and the reason is emptied. The service code is
   * resolved but written to an attribute that is not a column, so the stored
   * service code never changes. An unresolvable CNAE code is 400 before the
   * commit: nothing at all is persisted.
   */
  method UpdateNotaFiscal(db: Database, notaId: int, usuarioId: Uuid, dados: NotaFiscalCreate)
    returns (r: Result<Option<NotaFiscal>>)
    requires db.Valid() && usuarioId in db.usuarios
    modifies db`notas, db`clientes, db`proximoCliente
    ensures db.Valid()
    ensures r == Ok(None) <==> !(notaId in old(db.notas) && old(db.notas)[notaId].usuarioId == usuarioId)
    ensures notaId in old(db.notas) && old(db.notas)[notaId].usuarioId == usuarioId ==>
      (r.Err? <==> GetCodigoServicoByCnae(db.cnae, dados.codCnae).None?)
    ensures r.Err? ==> r.code == BadRequest
    ensures r.Err? || r == Ok(None) ==>
      db.notas == old(db.notas) && db.clientes == old(db.clientes) && db.proximoCliente == old(db.proximoCliente)
    ensures r.Ok? && r.value.Some? ==>
      var antiga := old(db.notas)[notaId];
      && notaId in old(db.notas) && antiga.usuarioId == usuarioId
      && Transicao(Editar, antiga.statusId) == Some(r.value.value.statusId)
      && r.value.value.clienteId.Some?
      && r.value.value == antiga.(clienteId := r.value.value.clienteId, codCnae := Some(dados.codCnae),
           valorTotal := dados.valorTotal, descricao := dados.descricao, statusId := Pendente, descMotivo := Some(""))
      && db.notas == old(db.notas)[notaId := r.value.value]
      && var c := r.value.value.clienteId.value;
      && (antiga.clienteId.Some? ==>
           c == antiga.clienteId.value && db.proximoCliente == old(db.proximoCliente)
           && db.clientes.Keys == old(db.clientes).Keys
           && (forall k :: k in db.clientes && k != c ==> db.clientes[k] == old(db.clientes)[k])
           && ClienteEditado(old(db.clientes)[c], db.clientes[c], dados, usuarioId))
      && (antiga.clienteId.None? ==>
           c == old(db.proximoCliente) && c !in old(db.clientes)
           && db.clientes == old(db.clientes)[c := NovoCliente(c, usuarioId, ClienteDoPedido(dados))]
           && db.proximoCliente == old(db.proximoCliente) + 1)
  {
    if notaId !in db.notas || db.notas[notaId].usuarioId != usuarioId {
      return Ok(None);
    }
    var nota := db.notas[notaId];
    var clientes, proximo, clienteId := ClientesAposEdicao(db.clientes, db.usuarios, db.proximoCliente, nota.clienteId, usuarioId, dados);
    nota := nota.(clienteId := Some(clienteId), codCnae := Some(dados.codCnae), valorTotal := dados.valorTotal,
      descricao := dados.descricao, statusId := Pendente, descMotivo := Some(""));
    var codigoListaServico := GetCodigoServicoByCnae(db.cnae, dados.codCnae);
    if codigoListaServico.None? {
      return Err(BadRequest);
    }
    GravarEdicao(db, notaId, nota, clientes, proximo);
    r := Ok(Some(nota));
  }
}
