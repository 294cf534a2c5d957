/** Category configuration (GET and POST /api/config): the authorised
    partial update of a category's model selection, and the listing of every
    category's configuration. */
module ConfigRoute {
  import opened Wrappers
  import opened Strings
  import opened Db
  import opened Auth

  /** A string-or-null member of the JSON request body, or its absence. */
  datatype JsonField = Missing | Null | Str(text: string)
  {
    /** The field as the condition `if (field)` reads it. */
    predicate IsTruthy() {
      Str? && text != ""
    }
  }

  /** The members of the POST body the route reads. */
  datatype ConfigBody = ConfigBody(
    categoryId: JsonField,
    selectedModel: JsonField,
    fallback1: JsonField,
    fallback2: JsonField)

  /** The fallback normalisation `fallback || null`: a falsy value clears the
      column, an absent one leaves it alone. */
  function FallbackUpdate(field: JsonField): (u: Option<Option<string>>)
    ensures field.Missing? <==> u.None?
    ensures u.Some? ==> (u.value.None? <==> !field.IsTruthy())
    ensures u.Some? && u.value.Some? ==> field == Str(u.value.value) && u.value.value != ""
  {
    match field
    case Missing => None
    case Null => Some(None)
    case Str(text) => if text == "" then Some(None) else Some(Some(text))
  }

  /** The update a body asks for, or `None` when it would write NULL into the
      NOT NULL `selected_model` column, which the database rejects. The
      selected model is taken verbatim, even when empty. */
  function UpdatesOf(body: ConfigBody): (u: Option<CategoryUpdate>)
    ensures u.None? <==> body.selectedModel.Null?
    ensures u.Some? ==>
      && (u.value.selectedModel.None? <==> body.selectedModel.Missing?)
      && (body.selectedModel.Str? ==> u.value.selectedModel == Some(body.selectedModel.text))
      && u.value.fallback1 == FallbackUpdate(body.fallback1)
      && u.value.fallback2 == FallbackUpdate(body.fallback2)
  {
    match body.selectedModel
    case Null => None
    case Missing => Some(CategoryUpdate(None, FallbackUpdate(body.fallback1), FallbackUpdate(body.fallback2)))
    case Str(model) => Some(CategoryUpdate(Some(model), FallbackUpdate(body.fallback1), FallbackUpdate(body.fallback2)))
  }

  /** The selection echoed back after an update. */
  datatype Selection = Selection(
    id: string,
    selectedModel: string,
    fallback1: Option<string>,
    fallback2: Option<string>,
    updatedAt: string)

  datatype ConfigResponse =
    | Unauthorized
    | MissingCategoryId
    | UnknownCategory(categoryId: string)
    | Updated(category: Selection)
    | InternalError
  {
    function Status(): int {
      match this
      case Unauthorized => 401
      case MissingCategoryId => 400
      case UnknownCategory(_) => 404
      case Updated(_) => 200
      case InternalError => 500
    }

    function ErrorMessage(): string {
      match this
      case Unauthorized => "Nicht autorisiert"
      case MissingCategoryId => "categoryId ist erforderlich"
      case UnknownCategory(id) => "Kategorie '" + id + "' nicht gefunden"
      case Updated(_) => ""
      case InternalError => "Interner Serverfehler"
    }
  }

  function SelectionOf(c: Category): Selection {
    Selection(c.id, c.selectedModel, c.fallback1, c.fallback2, c.updatedAt)
  }

  /** POST /api/config. `body` is `None` when reading it throws: the request
      body is not valid JSON, or it is the JSON literal `null`, which cannot be
      destructured. Any other JSON value that is not an object (an array, a
      string, a number, a boolean) has none of the members read, so it is
      `ConfigBody(Missing, Missing, Missing, Missing)`. Every answer but a
      successful update leaves the store alone. */
  function Post(s: Store, secret: Option<string>, header: Option<string>, body: Option<ConfigBody>, now: string)
    : (r: (Store, ConfigResponse))
    requires Valid(s)
    ensures Valid(r.0)
    ensures !r.1.Updated? ==> r.0 == s
    ensures r.1.Status() == 401 <==> !CheckAuth(secret, header)
    ensures r.1.Status() == 400 <==> CheckAuth(secret, header) && body.Some? && !body.value.categoryId.IsTruthy()
    ensures r.1.Status() == 404 <==> (CheckAuth(secret, header) && body.Some? && body.value.categoryId.IsTruthy()
      && body.value.categoryId.text !in s.categories)
    ensures r.1.Status() == 500 <==> (CheckAuth(secret, header) && (body.None? ||
      (body.value.categoryId.IsTruthy() && body.value.categoryId.text in s.categories && body.value.selectedModel.Null?)))
    ensures r.1.Updated? ==>
      var id := body.value.categoryId.text;
      && id in s.categories
      && r.0 == UpdateCategory(s, id, UpdatesOf(body.value).value, now)
      && r.1.category == SelectionOf(r.0.categories[id])
  {
    if !CheckAuth(secret, header) then (s, Unauthorized)
    else if body.None? then (s, InternalError)
    else if !body.value.categoryId.IsTruthy() then (s, MissingCategoryId)
    else
      var id := body.value.categoryId.text;
      match GetCategory(s, id)
      case None => (s, UnknownCategory(id))
      case Some(_) =>
        match UpdatesOf(body.value)
        case None => (s, InternalError)
        case Some(updates) =>
          var s' := UpdateCategory(s, id, updates, now);
          UpdateCategoryPreservesValid(s, id, updates, now);
          (s', Updated(SelectionOf(s'.categories[id])))
  }

  /** A body without the members read, such as a JSON array, string, number
      or boolean, is answered with 400 and changes nothing. */
  lemma PostMemberlessBodyIsBadRequest(s: Store, secret: Option<string>, header: Option<string>, now: string)
    requires Valid(s) && CheckAuth(secret, header)
    ensures Post(s, secret, header, Some(ConfigBody(Missing, Missing, Missing, Missing)), now) == (s, MissingCategoryId)
  {
  }

  /** Without authorisation the body is never read: the answer is 401 for
      every body, and nothing changes. */
  lemma PostUnauthorizedIgnoresBody(s: Store, secret: Option<string>, header: Option<string>,
                                    b1: Option<ConfigBody>, b2: Option<ConfigBody>, now: string)
    requires Valid(s) && !CheckAuth(secret, header)
    ensures Post(s, secret, header, b1, now) == Post(s, secret, header, b2, now) == (s, Unauthorized)
  {
  }

  /** What a successful update stores: the selected model verbatim when
      supplied, each fallback cleared when supplied falsy, set when supplied
      non-empty, kept when absent; the rest of the category and every other
      category stay as they were. */
  lemma PostStoresNormalisedSelection(s: Store, secret: Option<string>, header: Option<string>,
                                      body: ConfigBody, now: string)
    requires Valid(s)
    requires Post(s, secret, header, Some(body), now).1.Updated?
    ensures var id := body.categoryId.text;
      var before := s.categories[id];
      var after := Post(s, secret, header, Some(body), now).0.categories[id];
      && after.name == before.name && after.description == before.description
      && after.keyProperty == before.keyProperty
      && (body.selectedModel.Missing? ==> after.selectedModel == before.selectedModel)
      && (body.selectedModel.Str? ==> after.selectedModel == body.selectedModel.text)
      && (body.fallback1.Missing? ==> after.fallback1 == before.fallback1)
      && (body.fallback1.IsTruthy() ==> after.fallback1 == Some(body.fallback1.text))
      && (!body.fallback1.Missing? && !body.fallback1.IsTruthy() ==> after.fallback1.None?)
      && (body.fallback2.Missing? ==> after.fallback2 == before.fallback2)
      && (body.fallback2.IsTruthy() ==> after.fallback2 == Some(body.fallback2.text))
      && (!body.fallback2.Missing? && !body.fallback2.IsTruthy() ==> after.fallback2.None?)
    ensures var r := Post(s, secret, header, Some(body), now).0;
      forall k | k in s.categories && k != body.categoryId.text :: r.categories[k] == s.categories[k]
  {
  }

  /** A body naming only the category is a complete no-op, `updated_at`
      included, though it is answered with success. */
  lemma PostWithoutChangesKeepsStore(s: Store, secret: Option<string>, header: Option<string>,
                                     body: ConfigBody, now: string)
    requires Valid(s) && CheckAuth(secret, header)
    requires body.categoryId.IsTruthy() && body.categoryId.text in s.categories
    requires body.selectedModel.Missing? && body.fallback1.Missing? && body.fallback2.Missing?
    ensures Post(s, secret, header, Some(body), now) == (s, Updated(SelectionOf(s.categories[body.categoryId.text])))
  {
  }

  // ---------------------------------------------------------------------
  // GET
  // ---------------------------------------------------------------------

  /** One category as GET reports it: everything but `created_at`. */
  datatype CategoryConfig = CategoryConfig(
    id: string,
    name: string,
    description: string,
    keyProperty: string,
    selectedModel: string,
    fallback1: Option<string>,
    fallback2: Option<string>,
    updatedAt: string)

  function ConfigOf(c: Category): (r: CategoryConfig)
    ensures r.id == c.id && r.name == c.name && r.description == c.description
    ensures r.keyProperty == c.keyProperty && r.selectedModel == c.selectedModel
    ensures r.fallback1 == c.fallback1 && r.fallback2 == c.fallback2 && r.updatedAt == c.updatedAt
  {
    CategoryConfig(c.id, c.name, c.description, c.keyProperty, c.selectedModel, c.fallback1, c.fallback2, c.updatedAt)
  }

  /** GET /api/config: the configuration of every category, in id order. */
  method Get(s: Store) returns (config: seq<CategoryConfig>)
    requires Valid(s)
    ensures |config| == |s.categories|
    ensures forall k | k in s.categories :: ConfigOf(s.categories[k]) in config
    ensures forall e | e in config :: e.id in s.categories && e == ConfigOf(s.categories[e.id])
    ensures forall i, j :: 0 <= i < j < |config| ==> LexLe(config[i].id, config[j].id) && config[i].id != config[j].id
  {
    var cats := GetAllCategories(s);
    config := seq(|cats|, i requires 0 <= i < |cats| => ConfigOf(cats[i]));
    forall k | k in s.categories ensures ConfigOf(s.categories[k]) in config {
      var i :| 0 <= i < |cats| && cats[i] == s.categories[k];
      assert config[i] == ConfigOf(s.categories[k]);
    }
    forall e | e in config ensures e.id in s.categories && e == ConfigOf(s.categories[e.id]) {
      var i :| 0 <= i < |config| && config[i] == e;
      assert cats[i] in cats;
    }
  }
}
