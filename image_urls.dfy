/** `getImageUrl`, written identically in the product grid, the product page,
    the saved-products list and the user dashboard. */
module ImageUrls {
  import opened Text

  /** Empty stays empty; absolute (`http...`) and uploaded (`/uploads/...`)
      addresses pass through; a protocol-relative `//host/...` gets `https:`. */
  function ImageUrl(url: string): (r: string)
    ensures StartsWith(url, "//") ==> r == "https:" + url
    ensures !StartsWith(url, "//") ==> r == url
  {
    if url == "" then ""
    else
      assert StartsWith(url, "//") ==> url[..2][0] == '/' && url[..2][1] == '/';
      if StartsWith(url, "http") || StartsWith(url, "/uploads/") then url
      else if StartsWith(url, "//") then "https:" + url
      else url
  }

  /** Normalising twice is normalising once: the result is never protocol-relative. */
  lemma ImageUrlIdempotent(url: string)
    ensures !StartsWith(ImageUrl(url), "//")
    ensures ImageUrl(ImageUrl(url)) == ImageUrl(url)
  {
    if StartsWith(url, "//") {
      assert ImageUrl(url)[..2] == "ht";
    }
  }

  /** The original address can be read back from the result. */
  lemma ImageUrlRecoverable(url: string)
    ensures var r := ImageUrl(url);
      if StartsWith(url, "//") then |r| == |url| + 6 && r[6..] == url else r == url
  {
  }
}
