/** The record mapper: each search hit describing a saved data view becomes
    one report row, and a hit lacking a required key is skipped with one
    diagnostic line (el.py, lines 35-49). */
module DataViews {
  import opened Wrappers

  /** One entry of `attributes.fields`; only the number of entries is read. */
  datatype FieldDescriptor = FieldDescriptor(raw: string)

  /** `_source.attributes` of a hit; each member is absent or present. */
  datatype Attributes = Attributes(
    title: Option<string>,
    timeFieldName: Option<string>,
    fields: Option<seq<FieldDescriptor>>)

  /** `_source` of a hit. */
  datatype Source = Source(attributes: Option<Attributes>)

  /** One element of `response["hits"]["hits"]`. */
  datatype Hit = Hit(id: Option<string>, source: Option<Source>)

  /** One row of the report: the columns ID, Title, Time Field and Field Count. */
  datatype Row = Row(id: string, title: string, timeField: string, fieldCount: nat)

  /** The keys whose absence raises `KeyError`, in the order they are looked up. */
  datatype Key = SourceKey | AttributesKey | IdKey | TitleKey

  const LookupOrder: seq<Key> := [SourceKey, AttributesKey, IdKey, TitleKey]

  /** Default for a missing `timeFieldName`. */
  const NoTimeField: string := "N/A"

  function KeyName(k: Key): string
  {
    match k
    case SourceKey => "_source"
    case AttributesKey => "attributes"
    case IdKey => "_id"
    case TitleKey => "title"
  }

  /** Python's `str(KeyError(k))` is the key's repr: the name in single quotes. */
  function KeyErrorText(name: string): string
  {
    "'" + name + "'"
  }

  /** The diagnostic printed for a hit that lacks key `k`. */
  function MissingKeyLine(k: Key): string
  {
    "Missing expected key in document: " + KeyErrorText(KeyName(k))
  }

  /** Whether the lookup of `k` in `h` finds a value, when made. */
  predicate Present(h: Hit, k: Key)
  {
    match k
    case SourceKey => h.source.Some?
    case AttributesKey => h.source.Some? && h.source.value.attributes.Some?
    case IdKey => h.id.Some?
    case TitleKey =>
      h.source.Some? && h.source.value.attributes.Some? && h.source.value.attributes.value.title.Some?
  }

  /** A hit from which a row can be built: every required key is present. */
  predicate HasRequiredKeys(h: Hit)
  {
    forall k: Key :: Present(h, k)
  }

  /** The body of the `try` block for one hit: the row it yields, or the key
      whose lookup raised `KeyError` first. */
  function Project(h: Hit): Result<Row, Key>
  {
    match h.source
    case None => Err(SourceKey)
    case Some(src) =>
      match src.attributes
      case None => Err(AttributesKey)
      case Some(attrs) =>
        match h.id
        case None => Err(IdKey)
        case Some(id) =>
          match attrs.title
          case None => Err(TitleKey)
          case Some(title) =>
            Ok(Row(id, title, attrs.timeFieldName.GetOr(NoTimeField), |attrs.fields.GetOr([])|))
  }

  /** What one hit adds to the rows: its row, or nothing. */
  function RowsOf(h: Hit): seq<Row>
  {
    match Project(h)
    case Ok(row) => [row]
    case Err(_) => []
  }

  /** What one hit adds to the printed diagnostics: nothing, or one line. */
  function DiagnosticsOf(h: Hit): seq<string>
  {
    match Project(h)
    case Ok(_) => []
    case Err(k) => [MissingKeyLine(k)]
  }

  /** The rows collected from `hits`, as the loop builds them. */
  function Rows(hits: seq<Hit>): (rows: seq<Row>)
    ensures |rows| <= |hits|
  {
    if hits == [] then []
    else Rows(hits[..|hits| - 1]) + RowsOf(hits[|hits| - 1])
  }

  /** The diagnostic lines printed while processing `hits`, in order. */
  function Diagnostics(hits: seq<Hit>): (lines: seq<string>)
    ensures |lines| <= |hits|
  {
    if hits == [] then []
    else Diagnostics(hits[..|hits| - 1]) + DiagnosticsOf(hits[|hits| - 1])
  }

  /** The positions `i` of `hits` for which `Project(hits[i]).Ok? == ok`, ascending. */
  function Where(hits: seq<Hit>, ok: bool): (ix: seq<nat>)
    ensures forall k :: 0 <= k < |ix| ==> ix[k] < |hits|
  {
    if hits == [] then []
    else
      var n := |hits| - 1;
      Where(hits[..n], ok) + (if Project(hits[n]).Ok? == ok then [n] else [])
  }

  /** The `for hit in ...` loop: append the row of each hit, or print its
      diagnostic and continue with the next hit. */
  method BuildRows(hits: seq<Hit>) returns (rows: seq<Row>, diagnostics: seq<string>)
    ensures rows == Rows(hits)
    ensures diagnostics == Diagnostics(hits)
  {
    rows, diagnostics := [], [];
    for i := 0 to |hits|
      invariant rows == Rows(hits[..i])
      invariant diagnostics == Diagnostics(hits[..i])
    {
      assert hits[..i + 1][..i] == hits[..i];
      match Project(hits[i])
      case Ok(row) =>
        rows := rows + [row];
      case Err(key) =>
        diagnostics := diagnostics + [MissingKeyLine(key)];
    }
    assert hits[..|hits|] == hits;
  }

  // ---------------------------------------------------------------------
  // Properties of one hit

  /** A hit yields a row exactly when `_source`, `attributes`, `_id` and `title` are all present. */
  lemma ProjectOkIffRequiredKeys(h: Hit)
    ensures Project(h).Ok? <==> HasRequiredKeys(h)
  {
    if !Project(h).Ok? {
      assert !Present(h, Project(h).error);
    }
  }

  /** The key reported is the first missing one in lookup order: `LookupOrder[j]`
      is reported exactly when it is absent and every earlier key is present. */
  lemma ProjectReportsFirstMissing(h: Hit, j: nat)
    requires j < |LookupOrder|
    ensures Project(h) == Err(LookupOrder[j]) <==>
            !Present(h, LookupOrder[j]) && forall i :: 0 <= i < j ==> Present(h, LookupOrder[i])
  {
    assert LookupOrder[0] == SourceKey && LookupOrder[1] == AttributesKey;
    assert LookupOrder[2] == IdKey && LookupOrder[3] == TitleKey;
  }

  /** ID and Title are copied verbatim, Time Field is `timeFieldName` or "N/A",
      Field Count is the number of `fields` entries or 0. */
  lemma ProjectRowColumns(h: Hit)
    requires HasRequiredKeys(h)
    ensures Project(h).Ok?
    ensures var row, attrs := Project(h).value, h.source.value.attributes.value;
      && row.id == h.id.value
      && row.title == attrs.title.value
      && (attrs.timeFieldName.Some? ==> row.timeField == attrs.timeFieldName.value)
      && (attrs.timeFieldName.None? ==> row.timeField == "N/A")
      && (attrs.fields.Some? ==> row.fieldCount == |attrs.fields.value|)
      && (attrs.fields.None? ==> row.fieldCount == 0)
  {
    assert Present(h, SourceKey) && Present(h, AttributesKey) && Present(h, IdKey) && Present(h, TitleKey);
  }

  // ---------------------------------------------------------------------
  // Properties of the whole hit list

  /** Every hit is accounted for exactly once: as a row or as a diagnostic line. */
  lemma {:induction false} RowsPlusDiagnostics(hits: seq<Hit>)
    ensures |Rows(hits)| + |Diagnostics(hits)| == |hits|
  {
    if hits != [] {
      RowsPlusDiagnostics(hits[..|hits| - 1]);
    }
  }

  /** The positions selected by `Where` ascend strictly and are exactly those
      whose projection succeeds (`ok`) or fails (`!ok`). */
  lemma {:induction false} WhereSelects(hits: seq<Hit>, ok: bool)
    ensures forall k, l :: 0 <= k < l < |Where(hits, ok)| ==> Where(hits, ok)[k] < Where(hits, ok)[l]
    ensures forall i :: 0 <= i < |hits| ==> (i in Where(hits, ok) <==> Project(hits[i]).Ok? == ok)
  {
    if hits != [] {
      var n := |hits| - 1;
      var init := hits[..n];
      WhereSelects(init, ok);
      forall i | 0 <= i < n ensures hits[i] == init[i] { }
    }
  }

  /** The rows are the projections of the hits that have every required key,
      in input order: row `k` comes from the `k`-th such hit. */
  lemma {:induction false} RowsFollowHits(hits: seq<Hit>)
    ensures |Rows(hits)| == |Where(hits, true)|
    ensures forall k :: 0 <= k < |Rows(hits)| ==> Project(hits[Where(hits, true)[k]]) == Ok(Rows(hits)[k])
    ensures forall i :: 0 <= i < |hits| ==> (i in Where(hits, true) <==> HasRequiredKeys(hits[i]))
    ensures forall k, l :: 0 <= k < l < |Where(hits, true)| ==> Where(hits, true)[k] < Where(hits, true)[l]
  {
    WhereSelects(hits, true);
    forall i | 0 <= i < |hits| ensures Project(hits[i]).Ok? <==> HasRequiredKeys(hits[i]) {
      ProjectOkIffRequiredKeys(hits[i]);
    }
    if hits != [] {
      var n := |hits| - 1;
      var init := hits[..n];
      RowsFollowHits(init);
      forall i | 0 <= i < n ensures hits[i] == init[i] { }
    }
  }

  /** The diagnostics name, in input order, the first missing key of each hit that
      yields no row: line `k` belongs to the `k`-th such hit. */
  lemma {:induction false} DiagnosticsFollowHits(hits: seq<Hit>)
    ensures |Diagnostics(hits)| == |Where(hits, false)|
    ensures forall k :: 0 <= k < |Diagnostics(hits)| ==>
      Project(hits[Where(hits, false)[k]]).Err? &&
      Diagnostics(hits)[k] == MissingKeyLine(Project(hits[Where(hits, false)[k]]).error)
  {
    if hits != [] {
      var n := |hits| - 1;
      var init := hits[..n];
      DiagnosticsFollowHits(init);
      forall i | 0 <= i < n ensures hits[i] == init[i] { }
    }
  }

  /** When every hit has its required keys, there is one row per hit, row `i`
      comes from hit `i`, and nothing is printed before the table. */
  lemma {:induction false} AllHitsComplete(hits: seq<Hit>)
    requires forall i :: 0 <= i < |hits| ==> HasRequiredKeys(hits[i])
    ensures |Rows(hits)| == |hits|
    ensures forall i :: 0 <= i < |hits| ==> Project(hits[i]) == Ok(Rows(hits)[i])
    ensures Diagnostics(hits) == []
  {
    if hits != [] {
      var n := |hits| - 1;
      var init := hits[..n];
      AllHitsComplete(init);
      ProjectOkIffRequiredKeys(hits[n]);
    }
  }

  /** Distinct keys give distinct diagnostics, so each line names its key unambiguously. */
  lemma MissingKeyLineNamesKey(k1: Key, k2: Key)
    ensures MissingKeyLine(k1) == MissingKeyLine(k2) ==> k1 == k2
  {
    var prefix := "Missing expected key in document: ";
    assert |MissingKeyLine(k1)| == |prefix| + 2 + |KeyName(k1)|;
    assert |MissingKeyLine(k2)| == |prefix| + 2 + |KeyName(k2)|;
  }

  /** The diagnostic for a key that is read with a default is never printed:
      every diagnostic is shorter than the one naming `timeFieldName`. */
  lemma MissingKeyLineNeverTimeFieldName(k: Key)
    ensures MissingKeyLine(k) != "Missing expected key in document: 'timeFieldName'"
  {
    var prefix := "Missing expected key in document: ";
    assert |KeyErrorText(KeyName(k))| <= 12;
    assert |MissingKeyLine(k)| == |prefix| + |KeyErrorText(KeyName(k))|;
  }

  /** No diagnostic ever names `timeFieldName`, whatever the hits. */
  lemma NeverMissingTimeFieldName(hits: seq<Hit>)
    ensures forall k :: 0 <= k < |Diagnostics(hits)| ==>
      Diagnostics(hits)[k] != "Missing expected key in document: 'timeFieldName'"
  {
    DiagnosticsFollowHits(hits);
    forall k | 0 <= k < |Diagnostics(hits)|
      ensures Diagnostics(hits)[k] != "Missing expected key in document: 'timeFieldName'"
    {
      MissingKeyLineNeverTimeFieldName(Project(hits[Where(hits, false)[k]]).error);
    }
  }
}
