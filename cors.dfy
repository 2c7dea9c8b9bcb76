/** The allowed origins of the HTTP application, read from the `cors_origins` setting. */
module Cors {
  import opened PyStrings

  /** `["*"]` for exactly "*", otherwise the non-blank comma pieces, stripped, in order. */
  function Origins(corsOrigins: string): (r: seq<string>)
    ensures corsOrigins == "*" ==> r == ["*"]
    ensures corsOrigins != "*" ==> r == StrippedPieces(corsOrigins, ',')
  {
    if corsOrigins == "*" then ["*"] else StrippedPieces(corsOrigins, ',')
  }

  /**
   * Every origin is non-empty, has no whitespace at either end and no comma,
   * and there are at most as many origins as commas plus one.
   */
  lemma OriginsShape(corsOrigins: string)
    ensures |Origins(corsOrigins)| <= CountChar(corsOrigins, ',') + 1
    ensures forall i :: 0 <= i < |Origins(corsOrigins)| ==> var o := Origins(corsOrigins)[i];
      && o != [] && o[0] !in Whitespace && o[|o| - 1] !in Whitespace && ',' !in o
  {
    if corsOrigins == "*" {
      assert Origins(corsOrigins) == ["*"];
      assert '*' !in Whitespace;
    } else {
      assert Origins(corsOrigins) == StrippedPieces(corsOrigins, ',');
      StrippedPiecesShape(corsOrigins, ',');
    }
  }

  /** A setting made only of commas and whitespace allows no origin. */
  lemma BlankOrigins(corsOrigins: string)
    requires forall i :: 0 <= i < |corsOrigins| ==> corsOrigins[i] in Whitespace || corsOrigins[i] == ','
    ensures Origins(corsOrigins) == []
  {
    BlankStrippedPieces(corsOrigins, ',');
  }
}
