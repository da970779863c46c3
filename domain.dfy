/** The three-way site classification used by the server when it files a
    chat session (getDomainFromUrl) and by the extension when it keys the
    stored session id (getDomain): the two functions are the same test. */
module Domain {
  import opened Strings

  const SELLER: string := "seller.ozon.ru"
  const OZON: string := "ozon.ru"
  const UNKNOWN: string := "unknown"

  /** The seller cabinet is checked for first, then the storefront. */
  function DomainOf(url: string): (d: string)
    ensures d == SELLER || d == OZON || d == UNKNOWN
    ensures d == SELLER <==> Contains(url, SELLER)
  {
    if Contains(url, SELLER) then SELLER
    else if Contains(url, OZON) then OZON
    else UNKNOWN
  }

  /** "ozon.ru" occurs inside "seller.ozon.ru". */
  lemma SellerContainsOzon()
    ensures Contains(SELLER, OZON)
  {
    assert SELLER[7..7 + |OZON|] == OZON;
    ContainsAt(SELLER, OZON, 7);
  }

  /** A URL is classified as unknown exactly when it does not mention
      "ozon.ru" at all, and as the storefront exactly when it mentions
      "ozon.ru" but not "seller.ozon.ru". */
  lemma DomainCases(url: string)
    ensures DomainOf(url) == UNKNOWN <==> !Contains(url, OZON)
    ensures DomainOf(url) == OZON <==> Contains(url, OZON) && !Contains(url, SELLER)
  {
    if Contains(url, SELLER) {
      SellerContainsOzon();
      ContainsTransitive(url, SELLER, OZON);
    }
  }

  /** The three results are distinct strings. */
  lemma DomainsDistinct()
    ensures SELLER != OZON && OZON != UNKNOWN && SELLER != UNKNOWN
  {
    assert |SELLER| == 14 && |OZON| == 7 && |UNKNOWN| == 7;
    assert OZON[0] != UNKNOWN[0];
  }
}
