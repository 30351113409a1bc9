/** The failure raised when an identifier does not resolve to a stored item. */
module ProdutoNotFound {
  import opened JavaLang

  const Prefixo: string := "Produto não encontrado com id: "

  /** The exception's message for a missing id. */
  function Mensagem(id: int): (m: string)
    ensures |m| > |Prefixo| && m[..|Prefixo|] == Prefixo
  {
    Prefixo + Decimal(id)
  }

  /** The message contains the id's decimal text, and the id can be read back from it. */
  lemma MensagemInformaId(id: int)
    ensures Mensagem(id)[|Prefixo|..] == Decimal(id)
    ensures LerDecimal(Mensagem(id)[|Prefixo|..]) == id
  {
    LerDecimalIdaEVolta(id);
  }

  /** Two missing ids never produce the same message. */
  lemma MensagemInjetiva(a: int, b: int)
    requires Mensagem(a) == Mensagem(b)
    ensures a == b
  {
    MensagemInformaId(a);
    MensagemInformaId(b);
  }
}
