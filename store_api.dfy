/**
 * src/services/storeApi.ts: the pure utilities (media URLs, phone and CEP formatting), the
 * category-by-slug lookup over a fetched catalog, and the token side effects of the auth calls.
 * Every other endpoint wrapper is a remote outcome supplied by the caller.
 */
module StoreApi {
  import opened Wrappers
  import opened Text
  import opened Types
  import opened Api
  import Seqs

  /** API_CONFIG.BASE_URL with no environment override. */
  const BASE_URL: string := "https://web-production-3e83a.up.railway.app/api/v1"

  // ---------------------------------------------------------------------------------------------
  // Media URLs

  /** The host that relative media paths are resolved against: BASE_URL with its "/api/v1"
      removed, as buildMediaUrl's `replace` computes it. */
  const MEDIA_BASE: string := "https://web-production-3e83a.up.railway.app"

  predicate IsAbsoluteUrl(v: string) {
    StartsWith(v, "http://") || StartsWith(v, "https://")
  }

  /** buildMediaUrl: '' for a missing path, absolute URLs unchanged, relative paths joined to the
      host with exactly one '/' inserted when the path lacks one. */
  function BuildMediaUrl(value: Option<string>): (r: string)
    ensures !Truthy(value) ==> r == ""
    ensures Truthy(value) && IsAbsoluteUrl(value.value) ==> r == value.value
    ensures Truthy(value) && !IsAbsoluteUrl(value.value) ==>
              r == MEDIA_BASE + "/" + (if StartsWith(value.value, "/") then value.value[1..] else value.value)
    ensures Truthy(value) ==> |r| >= |value.value| && r[|r| - |value.value|..] == value.value
  {
    if !Truthy(value) then ""
    else
      var v := value.value;
      if IsAbsoluteUrl(v) then v
      else if StartsWith(v, "/") then
        assert v == "/" + v[1..];
        MEDIA_BASE + v
      else MEDIA_BASE + "/" + v
  }

  // ---------------------------------------------------------------------------------------------
  // Phone and CEP formatting

  /** `s` has the shape of `layout`, where 'D' stands for any digit and every other character
      must appear literally. */
  predicate MatchesLayout(s: string, layout: string) {
    |s| == |layout| &&
    forall i | 0 <= i < |s| :: if layout[i] == 'D' then IsDigit(s[i]) else s[i] == layout[i]
  }

  /** formatPhone: eleven digits become "(DD) DDDDD-DDDD", ten become "(DD) DDDD-DDDD", anything
      else is returned unchanged. Whatever happens, the digits are preserved in order. */
  function FormatPhone(phone: string): (r: string)
    ensures Digits(r) == Digits(phone)
    ensures |Digits(phone)| == 11 ==> MatchesLayout(r, "(DD) DDDDD-DDDD")
    ensures |Digits(phone)| == 10 ==> MatchesLayout(r, "(DD) DDDD-DDDD")
    ensures |Digits(phone)| != 10 && |Digits(phone)| != 11 ==> r == phone
  {
    var c := Digits(phone);
    DigitsIdempotent(phone);
    if |c| == 11 then
      PhoneDigits(c, 7);
      PhoneLayout11(c);
      "(" + c[..2] + ") " + c[2..7] + "-" + c[7..]
    else if |c| == 10 then
      PhoneDigits(c, 6);
      PhoneLayout10(c);
      "(" + c[..2] + ") " + c[2..6] + "-" + c[6..]
    else phone
  }

  /** Splitting a digit string for the phone formats loses and adds no digits. */
  lemma PhoneDigits(c: string, k: nat)
    requires AllDigits(c) && 2 <= k <= |c|
    ensures Digits("(" + c[..2] + ") " + c[2..k] + "-" + c[k..]) == c
  {
    assert AllDigits(c[..2]) && AllDigits(c[2..k]) && AllDigits(c[k..]) by {
      forall i | 0 <= i < |c[2..k]| ensures IsDigit(c[2..k][i]) {
        assert c[2..k][i] == c[2 + i];
      }
      forall i | 0 <= i < |c[k..]| ensures IsDigit(c[k..][i]) {
        assert c[k..][i] == c[k + i];
      }
    }
    Punctuated4Digits(c[..2], c[2..k], c[k..]);
    assert c == c[..2] + c[2..k] + c[k..];
  }

  lemma PhoneLayout11(c: string)
    requires AllDigits(c) && |c| == 11
    ensures MatchesLayout("(" + c[..2] + ") " + c[2..7] + "-" + c[7..], "(DD) DDDDD-DDDD")
  {
    var r := "(" + c[..2] + ") " + c[2..7] + "-" + c[7..];
    assert r == ['(', c[0], c[1], ')', ' ', c[2], c[3], c[4], c[5], c[6], '-', c[7], c[8], c[9], c[10]];
  }

  lemma PhoneLayout10(c: string)
    requires AllDigits(c) && |c| == 10
    ensures MatchesLayout("(" + c[..2] + ") " + c[2..6] + "-" + c[6..], "(DD) DDDD-DDDD")
  {
    var r := "(" + c[..2] + ") " + c[2..6] + "-" + c[6..];
    assert r == ['(', c[0], c[1], ')', ' ', c[2], c[3], c[4], c[5], '-', c[6], c[7], c[8], c[9]];
  }

  /** formatCEP: exactly eight digits become "DDDDD-DDD"; anything else is returned unchanged.
      Whatever happens, the digits are preserved in order. */
  function FormatCEP(cep: string): (r: string)
    ensures Digits(r) == Digits(cep)
    ensures |Digits(cep)| == 8 ==> MatchesLayout(r, "DDDDD-DDD")
    ensures |Digits(cep)| != 8 ==> r == cep
  {
    var c := Digits(cep);
    if |c| == 8 then
      var r := c[..5] + "-" + c[5..];
      DigitsAppend(c[..5] + "-", c[5..]);
      DigitsAppend(c[..5], "-");
      DigitsOfDigits(c[..5]);
      DigitsOfDigits(c[5..]);
      assert c == c[..5] + c[5..];
      DigitsIdempotent(cep);
      r
    else cep
  }

  /** The digits of "(" + a + ") " + b + "-" + c, for digit strings a, b and c, are a + b + c. */
  lemma Punctuated4Digits(a: string, b: string, c: string)
    requires AllDigits(a) && AllDigits(b) && AllDigits(c)
    ensures Digits("(" + a + ") " + b + "-" + c) == a + b + c
  {
    DigitsOfDigits(a);
    DigitsOfDigits(b);
    DigitsOfDigits(c);
    DigitsOfNonDigits("(");
    DigitsOfNonDigits(") ");
    DigitsOfNonDigits("-");
    var s1 := "(" + a;
    DigitsAppend("(", a);
    assert Digits(s1) == a;
    var s2 := s1 + ") ";
    DigitsAppend(s1, ") ");
    assert Digits(s2) == a;
    var s3 := s2 + b;
    DigitsAppend(s2, b);
    assert Digits(s3) == a + b;
    var s4 := s3 + "-";
    DigitsAppend(s3, "-");
    assert Digits(s4) == a + b;
    DigitsAppend(s4, c);
  }

  // ---------------------------------------------------------------------------------------------
  // Category lookup by slug

  /** `categories.find(c => c.slug === slug)`, as an index. */
  function FindCategoryBySlug(categories: seq<Category>, slug: string): (r: Option<nat>)
    ensures r.Some? ==> r.value < |categories| && categories[r.value].slug == slug &&
                        forall j | 0 <= j < r.value :: categories[j].slug != slug
    ensures r.None? ==> forall j | 0 <= j < |categories| :: categories[j].slug != slug
  {
    Seqs.FirstIndex(categories, (c: Category) => c.slug == slug)
  }

  /** `products_by_category[id] || []` */
  function IndexEntry(catalog: Catalog, categoryId: string): seq<Product> {
    if categoryId in catalog.productsByCategory then catalog.productsByCategory[categoryId] else []
  }

  /** getProductsByCategory(slug) over a fetched catalog: [] when no category has the slug,
      otherwise the index entry of the first such category's id. */
  function ProductsByCategorySlug(catalog: Catalog, slug: string): (r: seq<Product>)
    ensures (forall j | 0 <= j < |catalog.categories| :: catalog.categories[j].slug != slug) ==> r == []
    ensures forall i | 0 <= i < |catalog.categories| && catalog.categories[i].slug == slug &&
                       (forall j | 0 <= j < i :: catalog.categories[j].slug != slug) ::
              r == IndexEntry(catalog, catalog.categories[i].id)
  {
    match FindCategoryBySlug(catalog.categories, slug)
    case None => []
    case Some(k) =>
      assert forall i | 0 <= i < |catalog.categories| && catalog.categories[i].slug == slug &&
                        (forall j | 0 <= j < i :: catalog.categories[j].slug != slug) :: i == k;
      IndexEntry(catalog, catalog.categories[k].id)
  }

  // ---------------------------------------------------------------------------------------------
  // Auth calls and their token side effects

  datatype LoginResponse = LoginResponse(token: Option<string>, user: User)

  /** The stored token after a login or registration answered by `response`: the returned token
      when the response carries one, nothing after a 401, the previous one otherwise. */
  function TokenAfterAuth(before: Option<string>, response: Remote<LoginResponse>): Option<string> {
    match response
    case Ok(data) => if Truthy(data.token) then data.token else before
    case Err(e) => if Is401(e) then None else before
  }

  method LoginUser(tokens: TokenStore, response: Remote<LoginResponse>) returns (r: Remote<LoginResponse>)
    requires tokens.Valid()
    modifies tokens
    ensures tokens.Valid()
    ensures r == response
    ensures tokens.Stored() == TokenAfterAuth(old(tokens.Stored()), response)
    ensures tokens.authToken == tokens.Stored()
  {
    r := Request(tokens, response);
    if r.Ok? && Truthy(r.value.token) {
      tokens.SetAuthToken(r.value.token);
    }
  }

  method RegisterUser(tokens: TokenStore, response: Remote<LoginResponse>) returns (r: Remote<LoginResponse>)
    requires tokens.Valid()
    modifies tokens
    ensures tokens.Valid()
    ensures r == response
    ensures tokens.Stored() == TokenAfterAuth(old(tokens.Stored()), response)
    ensures tokens.authToken == tokens.Stored()
  {
    r := Request(tokens, response);
    if r.Ok? && Truthy(r.value.token) {
      tokens.SetAuthToken(r.value.token);
    }
  }

  /** logoutUser: the token is cleared in a `finally`, so also when the remote logout fails. */
  method LogoutUser(tokens: TokenStore, response: Remote<()>) returns (r: Remote<()>)
    requires tokens.Valid()
    modifies tokens
    ensures tokens.Valid()
    ensures r == response
    ensures tokens.authToken == None && tokens.Stored() == None
  {
    r := Request(tokens, response);
    tokens.ClearAuthToken();
  }

  /** getProfile / updateProfile: plain calls through the auth client. */
  method ProfileCall(tokens: TokenStore, response: Remote<User>) returns (r: Remote<User>)
    requires tokens.Valid()
    modifies tokens
    ensures tokens.Valid()
    ensures r == response
    ensures tokens.Stored() == if response.Err? && Is401(response.error) then None else old(tokens.Stored())
    ensures tokens.authToken == tokens.Stored()
  {
    r := Request(tokens, response);
  }
}
