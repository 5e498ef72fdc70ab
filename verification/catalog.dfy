/** The product record the remote API returns, and the image-path rule both the
    product list and the registration form apply to it. */
module Catalog {
  import opened Wrappers
  import opened Text

  /** A product as received from `GET /productos`. Money amounts are whole
      currency units (fractions are not represented); `costo` and `precioVenta` may be `null`, and
      `activo` is `None` when the field is absent or holds something other than a
      boolean. */
  datatype Product = Product(
    idProducto: int,
    nombre: string,
    costo: Option<int>,
    precioVenta: Option<int>,
    stock: int,
    imagenUrl: Option<string>,
    activo: Option<bool>)

  /** `path` with at most one leading "/" removed (`replace(/^\//, "")`). */
  function StripLeadingSlash(path: string): (r: string)
    ensures path == r || path == "/" + r
    ensures |path| > 0 && path[0] == '/' ==> |r| == |path| - 1
  {
    if |path| > 0 && path[0] == '/' then path[1..] else path
  }

  /** `getImgSrc`: where the browser loads a product image from. A missing or empty
      reference has no image; one starting with "http" is already absolute; any
      other is a path under `apiBase`, joined by exactly the one "/" the rule adds
      after dropping at most one leading "/" of its own. */
  function ImgSrc(apiBase: string, imagenUrl: Option<string>): (r: Option<string>)
    ensures r.None? <==> imagenUrl.None? || imagenUrl.value == ""
    ensures r.Some? && StartsWith(imagenUrl.value, "http") ==> r.value == imagenUrl.value
    ensures r.Some? && !StartsWith(imagenUrl.value, "http") ==>
      && StartsWith(r.value, apiBase + "/")
      && var rest := r.value[|apiBase| + 1..];
         && (imagenUrl.value[0] == '/' ==> imagenUrl.value == "/" + rest)
         && (imagenUrl.value[0] != '/' ==> imagenUrl.value == rest)
  {
    match imagenUrl
    case None => None
    case Some(url) =>
      if url == "" then None
      else if StartsWith(url, "http") then Some(url)
      else
        var r := apiBase + "/" + StripLeadingSlash(url);
        assert r[|apiBase| + 1..] == StripLeadingSlash(url);
        Some(r)
  }

  /** With an absolute base, a resolved source is absolute, so resolving it again
      returns it unchanged. */
  lemma ImgSrcIdempotent(apiBase: string, imagenUrl: Option<string>)
    requires StartsWith(apiBase, "http")
    ensures ImgSrc(apiBase, ImgSrc(apiBase, imagenUrl)) == ImgSrc(apiBase, imagenUrl)
  {
    var r := ImgSrc(apiBase, imagenUrl);
    if r.Some? && !StartsWith(imagenUrl.value, "http") {
      assert r.value[..4] == apiBase[..4];
    }
  }
}
