/** The server action that stores a shared link: it checks its arguments,
    returns early when no database is configured, and inserts one row into
    the `links` table. */
module UploadLink {
  import opened Wrappers
  import opened Strings

  /** A server action receives whatever the client sent, so an argument may
      not be a string at all. */
  datatype Arg = Str(s: string) | NotAString

  datatype UploadError = ShapeIdNotPrefixed | HtmlNotAString

  /** One row of the `links` table. */
  datatype LinkRow = LinkRow(shapeId: string, html: string)

  const ShapePrefix := "shape:"

  /** `shapeId.replace(/^shape:/, '')`: the prefix is dropped once, at the
      start only; a string without it is returned as it is. */
  function StripShapePrefix(shapeId: string): (stored: string)
    ensures StartsWith(shapeId, ShapePrefix) ==> shapeId == ShapePrefix + stored
    ensures !StartsWith(shapeId, ShapePrefix) ==> stored == shapeId
    ensures |stored| <= |shapeId| && stored == shapeId[|shapeId| - |stored|..]
  {
    if StartsWith(shapeId, ShapePrefix) then shapeId[|ShapePrefix|..] else shapeId
  }

  /** "shape:shape:x" is stored as "shape:x": only one prefix goes. */
  lemma StripShapePrefixOnce()
    ensures StripShapePrefix("shape:shape:x") == "shape:x"
    ensures StripShapePrefix("shape:abc") == "abc"
  {
  }

  /** Stripping after adding the prefix gives back what was prefixed. */
  lemma StripShapePrefixInvertsPrefixing(id: string)
    ensures StripShapePrefix(ShapePrefix + id) == id
  {
    StartsWithConcat(ShapePrefix, id);
  }

  /** The `links` table, as the rows it holds in insertion order. */
  class LinksTable {
    var rows: seq<LinkRow>

    constructor ()
      ensures rows == []
    {
      rows := [];
    }

    /** `INSERT INTO links (shape_id, html) VALUES (...)`. */
    method Insert(row: LinkRow)
      modifies this
      ensures rows == old(rows) + [row]
    {
      rows := rows + [row];
    }
  }

  /** `uploadLink(shapeId, html)`. `databaseConfigured` stands for whether
      `POSTGRES_URL` is set. A thrown error is a `Failure`. */
  method Upload(links: LinksTable, shapeId: Arg, html: Arg, databaseConfigured: bool)
    returns (r: Result<bool, UploadError>)
    modifies links
    ensures !(shapeId.Str? && StartsWith(shapeId.s, ShapePrefix)) ==>
              r == Failure(ShapeIdNotPrefixed) && links.rows == old(links.rows)
    ensures shapeId.Str? && StartsWith(shapeId.s, ShapePrefix) && html.NotAString? ==>
              r == Failure(HtmlNotAString) && links.rows == old(links.rows)
    ensures shapeId.Str? && StartsWith(shapeId.s, ShapePrefix) && html.Str? && !databaseConfigured ==>
              r == Success(false) && links.rows == old(links.rows)
    ensures r == Success(true) <==>
              shapeId.Str? && StartsWith(shapeId.s, ShapePrefix) && html.Str? && databaseConfigured
    ensures r == Success(true) ==>
              links.rows == old(links.rows) + [LinkRow(StripShapePrefix(shapeId.s), html.s)]
  {
    if !shapeId.Str? || !StartsWith(shapeId.s, ShapePrefix) {
      return Failure(ShapeIdNotPrefixed);
    }
    if !html.Str? {
      return Failure(HtmlNotAString);
    }

    if !databaseConfigured {
      return Success(false);
    }

    var id := StripShapePrefix(shapeId.s);
    links.Insert(LinkRow(id, html.s));
    return Success(true);
  }
}
