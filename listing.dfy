/** Listings as the catalog shows them and as the add-account form sends
    them: the account record, the form fields, the payload built from the
    form, and the listing card's fallback rules. */
module Listing {
  import opened JsValue
  import opened JsString
  import opened JsNumber

  /** An account listing as the server returns it. An absent (undefined or
      null) property is `None`. */
  datatype Account = Account(id: string, title: string, description: Option<string>, rank: string,
                             price: int, heroCount: Option<int>, skinCount: Option<int>,
                             loginMethod: string, emailAccess: bool, images: Option<seq<string>>)

  /** The add-account form: every input holds text, except the email-access checkbox. */
  datatype AccountForm = AccountForm(title: string, description: string, rank: string, price: string,
                                     heroCount: string, skinCount: string, loginMethod: string,
                                     emailAccess: bool, images: string)

  /** The form's initial values, also restored after a successful save. */
  const DefaultForm := AccountForm("", "", "Epic", "", "", "", "Moonton", false, "")

  /** The body posted to create an account. `priceInput` is what is handed
      to `parseFloat` (`form.price || 0`); a count is undefined (`None`) or
      the result of `parseInt`. */
  datatype AccountPayload = AccountPayload(title: string, description: string, rank: string,
                                           priceInput: string, heroCount: Option<ParsedInt>,
                                           skinCount: Option<ParsedInt>, loginMethod: string,
                                           emailAccess: bool, images: seq<string>)

  /** The images field: `[]` when blank, otherwise the comma-separated
      pieces, each trimmed, empty pieces kept. */
  function ParseImages(field: string): (r: seq<string>)
    ensures field == "" ==> r == []
    ensures field != "" ==> |r| == multiset(field)[','] + 1
    ensures forall i :: 0 <= i < |r| ==> ',' !in r[i] && Trimmed(r[i])
  {
    if field == "" then []
    else
      var parts := Split(field, ',');
      SplitCount(field, ',');
      SplitPiecesFree(field, ',');
      TrimmedPiecesFree(parts);
      seq(|parts|, i requires 0 <= i < |parts| => Trim(parts[i]))
  }

  /** Trimming a piece that has no comma leaves it without one. */
  lemma TrimmedPiecesFree(parts: seq<string>)
    requires forall k :: 0 <= k < |parts| ==> ',' !in parts[k]
    ensures forall k :: 0 <= k < |parts| ==> ',' !in Trim(parts[k])
  {
  }

  /** A list of image URLs typed with commas between them is read back as
      that list, provided no URL holds a comma or surrounding white space. */
  lemma ParseImagesOfJoin(urls: seq<string>)
    requires |urls| >= 1 && urls != [""]
    requires forall k :: 0 <= k < |urls| ==> ',' !in urls[k] && Trimmed(urls[k])
    ensures ParseImages(Join(urls, ',')) == urls
  {
    var field := Join(urls, ',');
    JoinNotEmpty(urls);
    SplitJoin(urls, ',');
    ParseImagesPieces(field);
    forall k | 0 <= k < |urls| ensures ParseImages(field)[k] == urls[k] {
      TrimKeeps(urls[k]);
    }
  }

  /** Joining a list that is not just one empty string gives a non-empty text. */
  lemma JoinNotEmpty(urls: seq<string>)
    requires |urls| >= 1 && urls != [""]
    ensures Join(urls, ',') != ""
  {
    if |urls| >= 2 {
      assert Join(urls, ',') == urls[0] + [','] + Join(urls[1..], ',');
    }
  }

  /** URLs typed with a comma and a space between them, as in
      `"a.png, b.png"`, are read back without the space. */
  lemma ParseImagesSpaced(u: string, v: string)
    requires ',' !in u && ',' !in v && u != []
    requires Trimmed(u) && Trimmed(v)
    ensures ParseImages(u + ", " + v) == [u, v]
  {
    TrimKeeps(u);
    SplitSpaced(u, v);
    TrimSpaced(v);
    ParseImagesOfTwo(u + ", " + v, u, [' '] + v);
  }

  /** A field that splits into two pieces gives their two trims. */
  lemma ParseImagesOfTwo(field: string, a: string, b: string)
    requires field != "" && Split(field, ',') == [a, b]
    ensures ParseImages(field) == [Trim(a), Trim(b)]
  {
    ParseImagesPieces(field);
    var parts := Split(field, ',');
    var r := ParseImages(field);
    assert |r| == 2;
    assert r[0] == Trim(parts[0]) == Trim(a);
    assert r[1] == Trim(parts[1]) == Trim(b);
  }

  /** A non-blank images field gives one trimmed entry per split piece. */
  lemma ParseImagesPieces(field: string)
    requires field != ""
    ensures |ParseImages(field)| == |Split(field, ',')|
    ensures forall i :: 0 <= i < |ParseImages(field)| ==> ParseImages(field)[i] == Trim(Split(field, ',')[i])
  {
  }

  /** The comma splits `u, v` into `u` and ` v`. */
  lemma SplitSpaced(u: string, v: string)
    requires ',' !in u && ',' !in v
    ensures Split(u + ", " + v, ',') == [u, [' '] + v]
  {
    var spaced := [' '] + v;
    var parts := [u, spaced];
    assert parts[1..] == [spaced];
    assert Join(parts, ',') == u + [','] + spaced;
    assert u + [','] + spaced == u + ", " + v;
    SplitJoin(parts, ',');
  }

  /** One leading space goes away under `trim`. */
  lemma TrimSpaced(v: string)
    requires Trimmed(v)
    ensures Trim([' '] + v) == v
  {
    TrimKeeps(v);
    var spaced := [' '] + v;
    assert TrimStart(spaced) == TrimStart(v) by {
      assert spaced[1..] == v;
    }
  }

  /** An optional count field: undefined when blank, `parseInt` of the text otherwise. */
  function ParseCount(field: string): (r: Option<ParsedInt>)
    ensures r.None? <==> field == ""
  {
    if field != "" then Some(ParseInt(field)) else None
  }

  /** The payload `handleSubmit` posts: the form's fields with the price,
      counts and images converted. */
  function ToPayload(form: AccountForm): (p: AccountPayload)
    ensures p.title == form.title && p.description == form.description && p.rank == form.rank
    ensures p.loginMethod == form.loginMethod && p.emailAccess == form.emailAccess
    ensures form.price != "" ==> p.priceInput == form.price
    ensures form.price == "" ==> p.priceInput == "0"
    ensures p.heroCount == ParseCount(form.heroCount) && p.skinCount == ParseCount(form.skinCount)
    ensures p.images == ParseImages(form.images)
  {
    AccountPayload(form.title, form.description, form.rank,
                   if form.price != "" then form.price else "0",
                   ParseCount(form.heroCount), ParseCount(form.skinCount),
                   form.loginMethod, form.emailAccess, ParseImages(form.images))
  }

  /** A count typed as the decimal text of `n` is posted as `n`. */
  lemma PayloadCount(form: AccountForm, hero: int, skin: int)
    requires form.heroCount == IntToString(hero) && form.skinCount == IntToString(skin)
    ensures ToPayload(form).heroCount == Some(Int(hero)) && ToPayload(form).skinCount == Some(Int(skin))
  {
    ParseIntToString(hero);
    ParseIntToString(skin);
  }

  /** Title "X" and price "50000" with blank counts and images: counts are
      undefined, images empty, and the price text is passed on as typed. */
  lemma PayloadExample()
    ensures var p := ToPayload(DefaultForm.(title := "X", price := "50000"));
            p.heroCount.None? && p.skinCount.None? && p.images == []
            && p.priceInput == "50000" && p.rank == "Epic" && p.loginMethod == "Moonton" && !p.emailAccess
  {
  }

  /** What the card shows at the top: the first image, or a placeholder block. */
  datatype Thumbnail = Photo(url: string) | Placeholder

  /** `item.images && item.images[0]`: a photo only when the list exists and
      its first URL is non-empty. */
  function CardThumbnail(a: Account): (t: Thumbnail)
    ensures t.Placeholder? <==> a.images.None? || a.images.value == [] || a.images.value[0] == ""
    ensures t.Photo? ==> t.url != "" && t.url == a.images.value[0]
  {
    if a.images.Some? && a.images.value != [] && a.images.value[0] != "" then Photo(a.images.value[0])
    else Placeholder
  }

  /** `item.description || '—'`. */
  function DescriptionText(a: Account): (r: string)
    ensures r != ""
    ensures Truthy(a.description) ==> r == a.description.value
    ensures !Truthy(a.description) ==> r == "—"
  {
    if Truthy(a.description) then a.description.value else "—"
  }

  /** `count ?? '-'` as React renders it: the decimal text of the count, or a dash. */
  function CountText(c: Option<int>): (r: string)
    ensures r != ""
    ensures r == "-" <==> c.None?
  {
    match c
    case Some(n) => IntToString(n)
    case None => "-"
  }

  /** The dash appears only for an absent count (so 0 is shown as "0"), and
      a shown count reads back as the count itself. */
  lemma CountTextFaithful(c: Option<int>)
    ensures CountText(c) == "-" <==> c.None?
    ensures c.Some? ==> ParseInt(CountText(c)) == Int(c.value)
  {
    if c.Some? {
      var n := c.value;
      ParseIntToString(n);
      if n < 0 {
        assert |IntToString(n)| >= 2;
      } else {
        assert '0' <= IntToString(n)[0] <= '9';
      }
    }
  }

  /** A count of zero is shown as "0", not as the dash. */
  lemma CountTextZero()
    ensures CountText(Some(0)) == "0" && CountText(None) == "-"
  {
  }
}
