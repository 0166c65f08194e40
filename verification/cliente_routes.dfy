/**
 * The client routes' own logic: the admin/owner split when reading a client by
 * id, and the delete route with its ownership guard and the inline document
 * mask used in its confirmation message.
 */
module ClienteRoutes {
  import opened Outcomes
  import opened Models
  import opened Documents
  import opened Store
  import opened CrudCliente

  /**
   * The delete route's mask: a 14-character document is punctuated as a CNPJ, an
   * 11-character one as a CPF, anything else is returned as it is. Unlike
   * FormatarCpfCnpj it removes nothing first and looks at the length only.
   */
  function MascaraDocumento(doc: string): (r: string)
    ensures |doc| == 14 ==> |r| == 18 && Shaped(r, CnpjMask) && Slots(r, CnpjMask) == doc
    ensures |doc| == 11 ==> |r| == 14 && Shaped(r, CpfMask) && Slots(r, CpfMask) == doc
    ensures |doc| != 11 && |doc| != 14 ==> r == doc
  {
    if |doc| == 14 then
      MascaraCnpjSpec(doc);
      MascaraCnpj(doc)
    else if |doc| == 11 then
      MascaraCpfSpec(doc);
      MascaraCpf(doc)
    else
      doc
  }

  /** On a document made only of digits the inline mask and FormatarCpfCnpj agree. */
  lemma MascaraDocumentoConcordaComFormatar(doc: string)
    requires AllDigits(doc)
    ensures MascaraDocumento(doc) == FormatarCpfCnpj(doc)
  {
    assert OnlyDigits(doc) == doc;
    if |doc| == 14 {
      SlotsDetermine(MascaraDocumento(doc), FormatarCpfCnpj(doc), CnpjMask);
    } else if |doc| == 11 {
      SlotsDetermine(MascaraDocumento(doc), FormatarCpfCnpj(doc), CpfMask);
    }
  }

  /**
   * A CPF stored with its punctuation is 14 characters long, so the inline mask
   * treats it as a CNPJ, while FormatarCpfCnpj, which strips first, gives the
   * same punctuated CPF back: the two disagree on every such document.
   */
  lemma CpfPontuadoViraCnpj(d: string)
    requires |d| == 11 && AllDigits(d)
    ensures var p := MascaraCpf(d);
      && |p| == 14
      && Shaped(MascaraDocumento(p), CnpjMask) && Slots(MascaraDocumento(p), CnpjMask) == p
      && FormatarCpfCnpj(p) == p
      && MascaraDocumento(p) != FormatarCpfCnpj(p)
  {
    var p := MascaraCpf(d);
    MascaraCpfSpec(d);
    OnlyDigitsOfShaped(p, CpfMask);
    assert OnlyDigits(p) == d;
    SlotsDetermine(FormatarCpfCnpj(p), p, CpfMask);
  }

  /** The punctuation of the example CPF punctuated again. */
  lemma CpfPontuadoExemplo()
    ensures MascaraDocumento("123.456.789-01") == "12.3.4.56./789--01"
  {
    var doc := "123.456.789-01";
    assert MascaraDocumento(doc) == MascaraCnpj(doc);
    assert doc[..2] == "12" && doc[2..5] == "3.4" && doc[5..8] == "56.";
    assert doc[8..12] == "789-" && doc[12..] == "01";
    assert MascaraCnpj(doc) == "12" + "." + "3.4" + "." + "56." + "/" + "789-" + "-" + "01";
  }

  /** The digits of the example CPF, formatted. */
  lemma FormatarCpfExemplo()
    ensures FormatarCpfCnpj("12345678901") == "123.456.789-01"
  {
    var d := "12345678901";
    assert AllDigits(d);
    assert MascaraCpf(d) == "123.456.789-01" by {
      assert d[..3] == "123" && d[3..6] == "456" && d[6..9] == "789" && d[9..] == "01";
    }
  }

  /**
   * Reading a client by id: an administrator reads any client, anyone else only
   * their own; a missing client and another issuer's client both give 404.
   */
  function ObterClienteById(db: Database, id: int, atual: Usuario): (r: Result<Cliente>)
    reads db
    ensures r.Ok? <==> id in db.clientes && (atual.roleId == Admin || db.clientes[id].usuarioId == atual.id)
    ensures r.Ok? ==> r.value == db.clientes[id]
    ensures r.Err? ==> r.code == NotFound
  {
    var cliente := if atual.roleId == Admin then GetClienteById(db, id) else GetClienteByIdUsuario(db, id, atual.id);
    if cliente.None? then Err(NotFound) else Ok(cliente.value)
  }

  /** The parts of the delete route's confirmation: the client's name and its masked document. */
  datatype Exclusao = Exclusao(nome: string, documento: string)

  /**
   * The delete route: 404 unless the caller owns the client; a client without a
   * document fails with 500 while its length is taken (a TypeError) before
   * anything is deleted; otherwise the client is deleted and the confirmation
   * carries its name and masked document.
   */
  method DeletarCliente(db: Database, id: int, atual: Usuario) returns (r: Result<Exclusao>)
    requires db.Valid()
    modifies db`clientes, db`notas
    ensures db.Valid()
    ensures !(id in old(db.clientes) && old(db.clientes)[id].usuarioId == atual.id) ==> r == Err(NotFound)
    ensures id in old(db.clientes) && old(db.clientes)[id].usuarioId == atual.id && old(db.clientes)[id].cpfCnpj.None? ==>
      r == Err(InternalServerError)
    ensures id in old(db.clientes) && old(db.clientes)[id].usuarioId == atual.id && old(db.clientes)[id].cpfCnpj.Some? ==>
      r.Ok?
    ensures r.Err? ==> db.clientes == old(db.clientes) && db.notas == old(db.notas)
    ensures r.Ok? ==>
      && id in old(db.clientes)
      && old(db.clientes)[id].usuarioId == atual.id
      && old(db.clientes)[id].cpfCnpj.Some?
      && r.value == Exclusao(old(db.clientes)[id].razaoSocial, MascaraDocumento(old(db.clientes)[id].cpfCnpj.value))
      && db.clientes == old(db.clientes) - {id}
      && db.notas == DesvincularClientes(old(db.notas), {id})
  {
    var cliente := GetClienteByIdUsuario(db, id, atual.id);
    if cliente.None? {
      return Err(NotFound);
    }
    var nome := cliente.value.razaoSocial;
    if cliente.value.cpfCnpj.None? {
      return Err(InternalServerError);
    }
    var documentoFormatado := MascaraDocumento(cliente.value.cpfCnpj.value);
    DeleteCliente(db, id, atual.id);
    r := Ok(Exclusao(nome, documentoFormatado));
  }
}
