/**
 * The call to the municipal NFS-e web service: the request the issuer sends and
 * the test that decides whether the answer is an accepted emission. The SOAP
 * envelope, the HTTP transport and the XML parser are not modelled; the service
 * answers with a `RespostaSoap`, which is whatever the parser made of the reply.
 */
module Nfse {
  import opened Outcomes
  import opened Models
  import opened Documents

  /** The `eNFSeResult` element found in the reply; its text may be missing. */
  datatype Elemento = Elemento(text: Option<string>)

  /** What came back from the service, as seen after transport and parsing. */
  datatype RespostaSoap =
    | FalhaHttp                               // connection error, timeout or non-2xx status
    | XmlMalformado                           // the body is not well-formed XML
    | Documento(resultado: Option<Elemento>)  // parsed; the result element if present

  /** ASCII lower-casing of one character. */
  function LowerChar(c: char): (r: char)
    ensures 'A' <= c <= 'Z' ==> r as int == c as int + 32
    ensures !('A' <= c <= 'Z') ==> r == c
  {
    if 'A' <= c <= 'Z' then (c as int + 32) as char else c
  }

  /** ASCII lower-casing of a string, character by character. */
  function Lower(s: string): (r: string)
    ensures |r| == |s|
    ensures forall i :: 0 <= i < |s| ==> r[i] == LowerChar(s[i])
  {
    if s == [] then [] else [LowerChar(s[0])] + Lower(s[1..])
  }

  /** `sub` occurs in `s` starting at position `i`. */
  predicate OcorreEm(s: string, sub: string, i: int) {
    0 <= i && i + |sub| <= |s| && s[i..i + |sub|] == sub
  }

  /** `sub` occurs in `s` as a contiguous piece. */
  predicate Contains(s: string, sub: string) {
    exists i :: 0 <= i <= |s| && OcorreEm(s, sub, i)
  }

  /** The acceptance test on the result element: present, with non-empty text not mentioning "erro" in any case. */
  predicate RespostaAceita(resultado: Option<Elemento>) {
    resultado.Some? && resultado.value.text.Some? && resultado.value.text.value != []
    && !Contains(Lower(resultado.value.text.value), "erro")
  }

  /** The outcome of one emission: the accepted result text, or 502 for every kind of failure. */
  function ResultadoEmissao(resposta: RespostaSoap): (r: Result<string>)
    ensures r.Ok? <==> resposta.Documento? && RespostaAceita(resposta.resultado)
    ensures r.Ok? ==> Some(r.value) == resposta.resultado.value.text && r.value != []
    ensures r.Err? ==> r.code == BadGateway
  {
    match resposta
    case Documento(resultado) =>
      if RespostaAceita(resultado) then Ok(resultado.value.text.value) else Err(BadGateway)
    case _ => Err(BadGateway)
  }

  /** Lower-casing commutes with taking a piece of the text. */
  lemma {:induction false} LowerSlice(s: string, i: int, j: int)
    requires 0 <= i <= j <= |s|
    ensures Lower(s[i..j]) == Lower(s)[i..j]
  {
    assert |Lower(s[i..j])| == j - i;
    forall k | 0 <= k < j - i
      ensures Lower(s[i..j])[k] == Lower(s)[i..j][k]
    {
      assert s[i..j][k] == s[i + k];
    }
  }

  /**
   * A reply whose text contains "erro" written in any mixture of cases, anywhere,
   * is refused, whatever surrounds it.
   */
  lemma {:induction false} ErroEmQualquerCaixaRecusa(antes: string, palavra: string, depois: string)
    requires Lower(palavra) == "erro"
    ensures !RespostaAceita(Some(Elemento(Some(antes + palavra + depois))))
  {
    var t := antes + palavra + depois;
    var i := |antes|;
    assert t[i..i + 4] == palavra;
    LowerSlice(t, i, i + 4);
    assert OcorreEm(Lower(t), "erro", i);
  }

  /** A reply made of digits only is an accepted emission, and its text is the result. */
  lemma RespostaNumericaAceita(t: string)
    requires t != [] && AllDigits(t)
    ensures ResultadoEmissao(Documento(Some(Elemento(Some(t))))) == Ok(t)
  {
    forall i | 0 <= i <= |Lower(t)|
      ensures !OcorreEm(Lower(t), "erro", i)
    {
      if i + 4 <= |t| {
        assert Lower(t)[i..i + 4][0] == Lower(t)[i] == LowerChar(t[i]);
      }
    }
  }

  /** A message starting with an upper-case "ERRO" is refused with 502, whatever follows it. */
  lemma RespostaErroRecusada(resto: string)
    ensures ResultadoEmissao(Documento(Some(Elemento(Some("ERRO" + resto))))) == Err(BadGateway)
  {
    var l := Lower("ERRO");
    assert l[0] == 'e' && l[1] == 'r' && l[2] == 'r' && l[3] == 'o';
    ErroEmQualquerCaixaRecusa([], "ERRO", resto);
    assert [] + "ERRO" + resto == "ERRO" + resto;
  }

  /** An empty text, a missing text and a missing result element are refused with 502. */
  lemma RespostasVaziasRecusadas()
    ensures ResultadoEmissao(Documento(Some(Elemento(Some(""))))) == Err(BadGateway)
    ensures ResultadoEmissao(Documento(Some(Elemento(None)))) == Err(BadGateway)
    ensures ResultadoEmissao(Documento(None)) == Err(BadGateway)
  {
  }

  /** The description sent when the invoice has none (absent or empty). */
  const DescricaoPadrao := "Emissão via sistema 2RS Contabilidade"

  /** The fields of the emission request that depend on the invoice and the parties. */
  datatype PedidoNfse = PedidoNfse(
    nome: string,                    // the issuer's company name
    prestador: string,               // the issuer's formatted CPF/CNPJ
    inscricaoMunicipal: string,
    tomador: string,                 // the client's formatted CPF/CNPJ
    valor: int,
    codigoServico: Option<string>,
    aliquota: int,
    descricao: string,
    email: string)

  /** The text a missing client document turns into before formatting. */
  function TextoDocumento(doc: Option<string>): string {
    match doc
    case Some(d) => d
    case None => "None"
  }

  /**
   * Builds the request for `nota`, issued by `prestador` to `tomador`. An invoice
   * without a tax rate cannot be formatted into the envelope, so no request exists.
   */
  function MontarPedido(nota: NotaFiscal, prestador: Usuario, tomador: Cliente): (r: Option<PedidoNfse>)
    ensures r.None? <==> nota.aliquota.None?
    ensures r.Some? ==>
      && r.value.aliquota == nota.aliquota.value
      && r.value.valor == nota.valorTotal
      && r.value.codigoServico == nota.codigoListaServico
      && r.value.nome == prestador.razaoSocial
      && r.value.email == prestador.email
      && OnlyDigits(r.value.prestador) == OnlyDigits(prestador.cnpjCpf)
      && OnlyDigits(r.value.tomador) == OnlyDigits(TextoDocumento(tomador.cpfCnpj))
      && (tomador.cpfCnpj.None? ==> r.value.tomador == [])
      && (nota.descricao.Some? && nota.descricao.value != [] ==> r.value.descricao == nota.descricao.value)
      && (nota.descricao.None? || nota.descricao.value == [] ==> r.value.descricao == DescricaoPadrao)
      && (prestador.inscMunicipal.None? ==> r.value.inscricaoMunicipal == [])
      && (prestador.inscMunicipal.Some? ==> r.value.inscricaoMunicipal == prestador.inscMunicipal.value)
      && r.value.prestador == FormatarCpfCnpj(prestador.cnpjCpf)
      && r.value.tomador == FormatarCpfCnpj(TextoDocumento(tomador.cpfCnpj))
  {
    if nota.aliquota.None? then None
    else
      FormatarCpfCnpjDigits(prestador.cnpjCpf);
      FormatarCpfCnpjDigits(TextoDocumento(tomador.cpfCnpj));
      assert OnlyDigits("None") == [] by {
        assert !IsDigit('N') && !IsDigit('o') && !IsDigit('n') && !IsDigit('e');
        assert "None"[1..] == "one" && "one"[1..] == "ne" && "ne"[1..] == "e" && "e"[1..] == [];
      }
      var descricao := if nota.descricao.Some? && nota.descricao.value != [] then nota.descricao.value else DescricaoPadrao;
      var im := if prestador.inscMunicipal.Some? then prestador.inscMunicipal.value else [];
      Some(PedidoNfse(
        prestador.razaoSocial,
        FormatarCpfCnpj(prestador.cnpjCpf),
        im,
        FormatarCpfCnpj(TextoDocumento(tomador.cpfCnpj)),
        nota.valorTotal,
        nota.codigoListaServico,
        nota.aliquota.value,
        descricao,
        prestador.email))
  }
}
