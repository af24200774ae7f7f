/** Provider classification of an affiliate URL (`InferProvider`). */
module Provider {
  import opened Text

  /** The marketplaces the service knows, and the fallback. */
  datatype Provider = Shein | Temu | Amazon | Unknown
  {
    /** The string the service stores in `Proveedor`. */
    function Name(): string
    {
      match this
      case Shein => "Shein"
      case Temu => "Temu"
      case Amazon => "Amazon"
      case Unknown => "Desconocido"
    }
  }

  /** `InferProvider`: lower-case the URL, then test "shein", "temu" and
      "amazon" in that order; the first one found wins. */
  function InferProvider(url: string): (p: Provider)
    ensures p == Shein <==> Contains(Lower(url), "shein")
    ensures p == Temu <==> !Contains(Lower(url), "shein") && Contains(Lower(url), "temu")
    ensures p == Amazon <==>
      !Contains(Lower(url), "shein") && !Contains(Lower(url), "temu") && Contains(Lower(url), "amazon")
    ensures p == Unknown <==>
      !Contains(Lower(url), "shein") && !Contains(Lower(url), "temu") && !Contains(Lower(url), "amazon")
  {
    var lower := Lower(url);
    if Contains(lower, "shein") then Shein
    else if Contains(lower, "temu") then Temu
    else if Contains(lower, "amazon") then Amazon
    else Unknown
  }

  /** The four provider names are pairwise different, so the name determines
      the provider. */
  lemma NamesDistinct(p: Provider, q: Provider)
    ensures p.Name() == q.Name() <==> p == q
  {
    if p != q {
      assert p.Name()[0] != q.Name()[0] || |p.Name()| != |q.Name()|;
    }
  }

  /** Classification ignores ASCII case: two URLs that differ only in the case
      of their letters ("AMAZON.com", "amazon.com") get the same provider. */
  lemma InferProviderIgnoresCase(u: string, v: string)
    requires Lower(u) == Lower(v)
    ensures InferProvider(u) == InferProvider(v)
  {
  }
}
