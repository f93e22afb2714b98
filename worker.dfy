/**
 * The request handler: OPTIONS short-circuits, then the credential is
 * classified and the path picks the public view, the gated inventory view
 * or the usage text.
 */
module Worker {
  import opened Wrappers
  import opened JsValues
  import opened Access
  import opened Views
  import opened Store

  /** What the handler reads of a request: its method (`verb`), its path and its `pw` query parameter. */
  datatype Request = Request(verb: string, path: string, pw: Option<string>)

  /** The payload of a response; the JSON and text encodings and the headers are not modelled. */
  datatype Body =
    | NoBody                                     // 204, CORS pre-flight
    | Skus(skus: seq<Value>)                     // {skus}
    | Inventory(level: Level, items: seq<Record>) // {level, items}
    | Error(error: string)                       // {error}
    | Text(text: string)                         // plain-text usage hint

  datatype Response = Response(status: int, body: Body)

  const PublicPath := "/api/public"
  const InventoryPath := "/api/inventory"
  const UsageText := "OK. Try /api/public or /api/inventory?pw=..."
  const UnauthorizedError := "Unauthorized"

  /**
   * The response to `req`, given the secrets, what the store holds under
   * "items" (read only on the two API paths) and the JSON parser.
   */
  function Handle(req: Request, cfg: Secrets, stored: Option<string>, parse: Parser): (resp: Response)
    requires ParsesEmptyArray(parse)
    // OPTIONS answers 204 before anything else, whatever the path
    ensures req.verb == "OPTIONS" <==> resp == Response(204, NoBody)
    // the public path lists the truthy SKUs, whatever the credential
    ensures req.verb != "OPTIONS" && req.path == PublicPath ==>
      resp == Response(200, Skus(PublicSkus(ReadItems(stored, parse))))
    // the inventory path refuses level 0 with 401, and shows level-gated records otherwise
    ensures req.verb != "OPTIONS" && req.path == InventoryPath ==>
      var level := Classify(cfg, req.pw);
      if level == 0 then resp == Response(401, Error(UnauthorizedError))
      else resp == Response(200, Inventory(level, ProjectAll(ReadItems(stored, parse), level)))
    // every other path gets the usage text
    ensures req.verb != "OPTIONS" && req.path != PublicPath && req.path != InventoryPath ==>
      resp == Response(200, Text(UsageText))
    // inventory records only ever go out to a credential that matches a configured secret
    ensures resp.body.Inventory? ==> resp.body.level >= 1 && Grants(cfg, OrEmpty(req.pw), resp.body.level)
    ensures resp.status == 401 <==> resp.body.Error?
  {
    if req.verb == "OPTIONS" then Response(204, NoBody)
    else
      var level := Classify(cfg, req.pw);
      if req.path == PublicPath then
        Response(200, Skus(PublicSkus(ReadItems(stored, parse))))
      else if req.path == InventoryPath then
        if level == 0 then Response(401, Error(UnauthorizedError))
        else Response(200, Inventory(level, ProjectAll(ReadItems(stored, parse), level)))
      else Response(200, Text(UsageText))
  }

  /** A level-0 inventory request is refused without the store or the parser being consulted. */
  lemma UnauthorizedIgnoresStore(req: Request, cfg: Secrets, s1: Option<string>, p1: Parser, s2: Option<string>, p2: Parser)
    requires ParsesEmptyArray(p1) && ParsesEmptyArray(p2)
    requires req.verb != "OPTIONS" && req.path == InventoryPath
    requires OrEmpty(req.pw) == "" || forall l: Level :: !Grants(cfg, OrEmpty(req.pw), l)
    ensures Handle(req, cfg, s1, p1) == Handle(req, cfg, s2, p2) == Response(401, Error(UnauthorizedError))
  {
  }

  /** OPTIONS depends on nothing: not the path, the credential, the secrets or the store. */
  lemma OptionsIgnoresEverything(r1: Request, r2: Request, c1: Secrets, c2: Secrets,
                                 s1: Option<string>, p1: Parser, s2: Option<string>, p2: Parser)
    requires ParsesEmptyArray(p1) && ParsesEmptyArray(p2)
    requires r1.verb == "OPTIONS" && r2.verb == "OPTIONS"
    ensures Handle(r1, c1, s1, p1) == Handle(r2, c2, s2, p2)
  {
  }

  /** The public view does not depend on the credential or the secrets. */
  lemma PublicIgnoresCredential(r1: Request, r2: Request, c1: Secrets, c2: Secrets, stored: Option<string>, parse: Parser)
    requires ParsesEmptyArray(parse)
    requires r1.verb != "OPTIONS" && r2.verb != "OPTIONS" && r1.path == r2.path == PublicPath
    ensures Handle(r1, c1, stored, parse) == Handle(r2, c2, stored, parse)
  {
  }

  /** A missing or unparsable store gives `{skus: []}` and, when authorised, `{level, items: []}`. */
  lemma StoreFallback(req: Request, cfg: Secrets, stored: Option<string>, parse: Parser)
    requires ParsesEmptyArray(parse)
    requires req.verb != "OPTIONS"
    requires stored.None? || parse(stored.value).None?
    ensures req.path == PublicPath ==> Handle(req, cfg, stored, parse) == Response(200, Skus([]))
    ensures req.path == InventoryPath && Classify(cfg, req.pw) != 0 ==>
      Handle(req, cfg, stored, parse) == Response(200, Inventory(Classify(cfg, req.pw), []))
  {
  }

  // ---- worked examples ----

  /** Secrets with four distinct non-empty values, for the examples. */
  const ExampleSecrets := Secrets(Some("adm"), Some("three"), Some("two"), Some("one"))

  /** A fully populated stored item. */
  const FullItem := Item(Str("P-200R"), Str("1-200"), Str("2-4 weeks"), Num(50.0), Str("2024-01-01"))

  /** The full item's record at each level: level 2 adds `minLot`, level 3 adds `updatedAt`. */
  lemma FullItemRecords()
    ensures View(FullItem, 1) == Record(Str("P-200R"), Str("1-200"), Str("2-4 weeks"), None, None)
    ensures View(FullItem, 2) == Record(Str("P-200R"), Str("1-200"), Str("2-4 weeks"), Some(Num(50.0)), None)
    ensures View(FullItem, 3)
      == Record(Str("P-200R"), Str("1-200"), Str("2-4 weeks"), Some(Num(50.0)), Some(Str("2024-01-01")))
  {
  }

  /** The example secrets grant 1, 2 and 3 to their own values and nothing to any other credential. */
  lemma ExampleLevels()
    ensures Classify(ExampleSecrets, Some("one")) == 1
    ensures Classify(ExampleSecrets, Some("two")) == 2
    ensures Classify(ExampleSecrets, Some("three")) == 3
    ensures Classify(ExampleSecrets, Some("adm")) == 3
    ensures Classify(ExampleSecrets, Some("wrong")) == 0
    ensures Classify(ExampleSecrets, None) == 0
  {
  }

  /** The store holding `[FullItem]`, read through each path at each level and with a wrong or missing credential. */
  lemma FullItemExample(raw: string, parse: Parser, pw: string)
    requires ParsesEmptyArray(parse) && raw != "" && parse(raw) == Some([FullItem])
    ensures Handle(Request("GET", PublicPath, None), ExampleSecrets, Some(raw), parse)
      == Response(200, Skus([Str("P-200R")]))
    ensures pw in {"one", "two", "three", "adm"} ==>
      var level := Classify(ExampleSecrets, Some(pw));
      Handle(Request("GET", InventoryPath, Some(pw)), ExampleSecrets, Some(raw), parse)
        == Response(200, Inventory(level, [View(FullItem, level)]))
    ensures pw == "wrong" ==>
      Handle(Request("GET", InventoryPath, Some(pw)), ExampleSecrets, Some(raw), parse)
        == Response(401, Error(UnauthorizedError))
    ensures Handle(Request("GET", InventoryPath, None), ExampleSecrets, Some(raw), parse)
      == Response(401, Error(UnauthorizedError))
  {
    assert ReadItems(Some(raw), parse) == [FullItem];
    assert PublicSkus([FullItem]) == [Str("P-200R")] by { PublicSkusSingle(FullItem); }
    ExampleLevels();
    var level := Classify(ExampleSecrets, Some(pw));
    assert |ProjectAll([FullItem], level)| == 1;
  }

  /**
   * The stored shape shown in the handler's own comment uses `leadTimeWeeks`,
   * which the projection never reads: the record falls back to the defaults
   * for `stockRange`, `leadTime` and `updatedAt`, while `minLot` keeps 50.
   */
  lemma CommentShapeExample()
    ensures View(Item(Str("P-200R"), Undefined, Undefined, Num(50.0), Undefined), 3)
      == Record(Str("P-200R"), Str("0"), Str(""), Some(Num(50.0)), Some(Null))
  {
  }
}
