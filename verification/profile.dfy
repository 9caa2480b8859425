/** The user's profile: four text fields and four notification flags, the
    text form the profile is stored in, and the lookup of a stored profile
    under the one key the app uses. */
module Profile {
  import opened Wrappers

  datatype NotificationPreferences = NotificationPreferences(
    orderStatuses: bool,
    passwordChanges: bool,
    specialOffers: bool,
    newsletter: bool)

  datatype PersonaInfo = PersonaInfo(
    firstName: string,
    email: string,
    lastName: string,
    phoneNumber: string,
    notificationPreferences: NotificationPreferences)

  /** The preferences a new profile starts with: every flag off. */
  function DefaultPreferences(): (n: NotificationPreferences)
    ensures !n.orderStatuses && !n.passwordChanges && !n.specialOffers && !n.newsletter
  {
    NotificationPreferences(false, false, false, false)
  }

  /** The profile built with no arguments: every text field empty and every
      notification flag off. */
  function DefaultInfo(): (p: PersonaInfo)
    ensures p.firstName == "" && p.email == "" && p.lastName == "" && p.phoneNumber == ""
    ensures p.notificationPreferences == DefaultPreferences()
  {
    PersonaInfo("", "", "", "", DefaultPreferences())
  }

  // ---------------------------------------------------------------------------
  // The four notification flags, one at a time

  datatype Flag = OrderStatuses | PasswordChanges | SpecialOffers | Newsletter

  /** The value of one flag. */
  function Get(n: NotificationPreferences, flag: Flag): (b: bool)
  {
    match flag
    case OrderStatuses => n.orderStatuses
    case PasswordChanges => n.passwordChanges
    case SpecialOffers => n.specialOffers
    case Newsletter => n.newsletter
  }

  /** A tap on a checkbox: the tapped flag is inverted and every other flag
      keeps its value. */
  function Flip(n: NotificationPreferences, flag: Flag): (r: NotificationPreferences)
    ensures Get(r, flag) == !Get(n, flag)
    ensures forall other :: other != flag ==> Get(r, other) == Get(n, other)
  {
    match flag
    case OrderStatuses => n.(orderStatuses := !n.orderStatuses)
    case PasswordChanges => n.(passwordChanges := !n.passwordChanges)
    case SpecialOffers => n.(specialOffers := !n.specialOffers)
    case Newsletter => n.(newsletter := !n.newsletter)
  }

  /** Preferences are determined by their four flags. */
  lemma PreferencesByFlags(n: NotificationPreferences, m: NotificationPreferences)
    requires forall flag :: Get(n, flag) == Get(m, flag)
    ensures n == m
  {
    assert Get(n, OrderStatuses) == Get(m, OrderStatuses);
    assert Get(n, PasswordChanges) == Get(m, PasswordChanges);
    assert Get(n, SpecialOffers) == Get(m, SpecialOffers);
    assert Get(n, Newsletter) == Get(m, Newsletter);
  }

  /** Two taps on the same checkbox restore the preferences. */
  lemma FlipTwice(n: NotificationPreferences, flag: Flag)
    ensures Flip(Flip(n, flag), flag) == n
  {
    forall other
      ensures Get(Flip(Flip(n, flag), flag), other) == Get(n, other)
    {
    }
    PreferencesByFlags(Flip(Flip(n, flag), flag), n);
  }

  /** Taps on two different checkboxes commute. */
  lemma FlipCommutes(n: NotificationPreferences, f: Flag, g: Flag)
    ensures Flip(Flip(n, f), g) == Flip(Flip(n, g), f)
  {
    forall other
      ensures Get(Flip(Flip(n, f), g), other) == Get(Flip(Flip(n, g), f), other)
    {
    }
    PreferencesByFlags(Flip(Flip(n, f), g), Flip(Flip(n, g), f));
  }

  // ---------------------------------------------------------------------------
  // The stored form: JSON-style text, keys in declaration order, no spaces

  type Data = string

  /** A string's characters with each quote and backslash preceded by a
      backslash. */
  function Escape(s: string): (r: string)
    ensures |r| >= |s|
  {
    if s == [] then []
    else (if s[0] == '"' || s[0] == '\\' then ['\\', s[0]] else [s[0]]) + Escape(s[1..])
  }

  /** A string as a quoted literal. */
  function Quote(s: string): (r: string)
  {
    "\"" + Escape(s) + "\""
  }

  /** A key and the colon after it. */
  function Member(key: string): (r: string)
  {
    "\"" + key + "\":"
  }

  function EncodeBool(b: bool): (r: string)
  {
    if b then "true" else "false"
  }

  /** The stored form of the preferences, followed by `rest`. */
  function PreferencesThen(n: NotificationPreferences, rest: Data): (r: Data)
  {
    "{" + (Member("orderStatuses") + (EncodeBool(n.orderStatuses)
    + ("," + (Member("passwordChanges") + (EncodeBool(n.passwordChanges)
    + ("," + (Member("specialOffers") + (EncodeBool(n.specialOffers)
    + ("," + (Member("newsletter") + (EncodeBool(n.newsletter) + ("}" + rest))))))))))))
  }

  /** The text a profile is stored as. Every profile has one: encoding cannot
      fail. */
  function Encode(p: PersonaInfo): (r: Data)
    ensures |r| > 0 && r[0] == '{'
  {
    "{" + (Member("firstName") + (Quote(p.firstName)
    + ("," + (Member("email") + (Quote(p.email)
    + ("," + (Member("lastName") + (Quote(p.lastName)
    + ("," + (Member("phoneNumber") + (Quote(p.phoneNumber)
    + ("," + (Member("notificationPreferences") + PreferencesThen(p.notificationPreferences, "}"))))))))))))))
  }

  // ---------------------------------------------------------------------------
  // Reading the stored form back. Each parser returns what it read and the
  // text after it, or None when the text does not have the expected shape.

  /** The text after a fixed prefix. */
  function Literal(lit: string, d: Data): (r: Option<Data>)
    ensures r.Some? <==> |lit| <= |d| && d[..|lit|] == lit
    ensures r.Some? ==> d == lit + r.value
  {
    if |lit| <= |d| && d[..|lit|] == lit then Some(d[|lit|..]) else None
  }

  /** The characters of a quoted literal up to its closing quote, undoing the
      escapes; a backslash before anything other than a quote or a backslash
      is rejected, as is a missing closing quote. */
  function ParseStringBody(d: Data): (r: Option<(string, Data)>)
    decreases |d|
  {
    if d == [] then None
    else if d[0] == '"' then Some(([], d[1..]))
    else if d[0] == '\\' then
      if |d| >= 2 && (d[1] == '"' || d[1] == '\\') then
        var (v, rest) :- ParseStringBody(d[2..]);
        Some(([d[1]] + v, rest))
      else None
    else
      var (v, rest) :- ParseStringBody(d[1..]);
      Some(([d[0]] + v, rest))
  }

  function ParseString(d: Data): (r: Option<(string, Data)>)
  {
    var rest :- Literal("\"", d);
    ParseStringBody(rest)
  }

  function ParseBool(d: Data): (r: Option<(bool, Data)>)
  {
    if Literal("true", d).Some? then Some((true, d[4..]))
    else if Literal("false", d).Some? then Some((false, d[5..]))
    else None
  }

  /** A key, its colon and a quoted string. */
  function StringField(key: string, d: Data): (r: Option<(string, Data)>)
  {
    var rest :- Literal(Member(key), d);
    ParseString(rest)
  }

  /** A key, its colon and a boolean. */
  function BoolField(key: string, d: Data): (r: Option<(bool, Data)>)
  {
    var rest :- Literal(Member(key), d);
    ParseBool(rest)
  }

  function ParsePreferences(d: Data): (r: Option<(NotificationPreferences, Data)>)
  {
    var d :- Literal("{", d);
    var (orderStatuses, d) :- BoolField("orderStatuses", d);
    var d :- Literal(",", d);
    var (passwordChanges, d) :- BoolField("passwordChanges", d);
    var d :- Literal(",", d);
    var (specialOffers, d) :- BoolField("specialOffers", d);
    var d :- Literal(",", d);
    var (newsletter, d) :- BoolField("newsletter", d);
    var d :- Literal("}", d);
    Some((NotificationPreferences(orderStatuses, passwordChanges, specialOffers, newsletter), d))
  }

  /** The profile a stored text holds, or None when the text is not exactly
      the stored form of a profile. */
  function Decode(d: Data): (r: Option<PersonaInfo>)
    ensures r.Some? ==> |d| > 0 && d[0] == '{'
  {
    var d :- Literal("{", d);
    var (firstName, d) :- StringField("firstName", d);
    var d :- Literal(",", d);
    var (email, d) :- StringField("email", d);
    var d :- Literal(",", d);
    var (lastName, d) :- StringField("lastName", d);
    var d :- Literal(",", d);
    var (phoneNumber, d) :- StringField("phoneNumber", d);
    var d :- Literal(",", d);
    var d :- Literal(Member("notificationPreferences"), d);
    var (preferences, d) :- ParsePreferences(d);
    var d :- Literal("}", d);
    if d == [] then Some(PersonaInfo(firstName, email, lastName, phoneNumber, preferences)) else None
  }

  // ---------------------------------------------------------------------------
  // Reading back what was written, and nothing else

  /** A quoted string's body is read back exactly, whatever follows it. */
  lemma {:induction false} StringBodyRoundTrip(s: string, rest: Data)
    ensures ParseStringBody(Escape(s) + "\"" + rest) == Some((s, rest))
  {
    if s == [] {
      assert Escape(s) + "\"" + rest == "\"" + rest;
    } else {
      StringBodyRoundTrip(s[1..], rest);
      var tail := Escape(s[1..]) + "\"" + rest;
      var head := if s[0] == '"' || s[0] == '\\' then ['\\', s[0]] else [s[0]];
      assert Escape(s) + "\"" + rest == head + tail;
      if s[0] == '"' || s[0] == '\\' {
        assert (head + tail)[2..] == tail;
      } else {
        assert (head + tail)[1..] == tail;
      }
      assert [s[0]] + s[1..] == s;
    }
  }

  /** Whatever the body parser accepts is an escaped string and its closing
      quote. */
  lemma {:induction false} StringBodySound(d: Data)
    requires ParseStringBody(d).Some?
    ensures d == Escape(ParseStringBody(d).value.0) + "\"" + ParseStringBody(d).value.1
    decreases |d|
  {
    var (v, rest) := ParseStringBody(d).value;
    if d[0] == '"' {
      assert v == [];
    } else if d[0] == '\\' {
      StringBodySound(d[2..]);
      var (v', rest') := ParseStringBody(d[2..]).value;
      assert v == [d[1]] + v' && rest == rest';
      assert v[1..] == v';
      assert d == [d[0], d[1]] + d[2..];
    } else {
      StringBodySound(d[1..]);
      var (v', rest') := ParseStringBody(d[1..]).value;
      assert v == [d[0]] + v' && rest == rest';
      assert v[1..] == v';
      assert d == [d[0]] + d[1..];
    }
  }

  lemma StringFieldRoundTrip(key: string, s: string, rest: Data)
    ensures StringField(key, Member(key) + (Quote(s) + rest)) == Some((s, rest))
  {
    assert Quote(s) + rest == "\"" + (Escape(s) + "\"" + rest);
    StringBodyRoundTrip(s, rest);
  }

  lemma StringFieldSound(key: string, d: Data)
    requires StringField(key, d).Some?
    ensures d == Member(key) + (Quote(StringField(key, d).value.0) + StringField(key, d).value.1)
  {
    var rest := Literal(Member(key), d).value;
    var body := Literal("\"", rest).value;
    StringBodySound(body);
  }

  lemma BoolFieldRoundTrip(key: string, b: bool, rest: Data)
    ensures BoolField(key, Member(key) + (EncodeBool(b) + rest)) == Some((b, rest))
  {
    var tail := EncodeBool(b) + rest;
    assert tail[|EncodeBool(b)|..] == rest;
    if !b {
      assert tail[..4] != "true" by {
        assert tail[0] == 'f';
      }
    }
  }

  lemma BoolFieldSound(key: string, d: Data)
    requires BoolField(key, d).Some?
    ensures d == Member(key) + (EncodeBool(BoolField(key, d).value.0) + BoolField(key, d).value.1)
  {
    var rest := Literal(Member(key), d).value;
    var (b, tail) := ParseBool(rest).value;
    if b {
      assert rest == "true" + tail;
    } else {
      assert rest == "false" + tail;
    }
  }

  /** A fixed prefix is read back, whatever follows it. */
  lemma LiteralRoundTrip(lit: string, rest: Data)
    ensures Literal(lit, lit + rest) == Some(rest)
  {
    assert (lit + rest)[..|lit|] == lit;
  }

  /** The preferences are read back exactly, whatever follows them. */
  lemma PreferencesRoundTrip(n: NotificationPreferences, rest: Data)
    ensures ParsePreferences(PreferencesThen(n, rest)) == Some((n, rest))
  {
    var e4 := "}" + rest;
    var e3 := "," + (Member("newsletter") + (EncodeBool(n.newsletter) + e4));
    var e2 := "," + (Member("specialOffers") + (EncodeBool(n.specialOffers) + e3));
    var e1 := "," + (Member("passwordChanges") + (EncodeBool(n.passwordChanges) + e2));
    var e0 := Member("orderStatuses") + (EncodeBool(n.orderStatuses) + e1);
    LiteralRoundTrip("{", e0);
    BoolFieldRoundTrip("orderStatuses", n.orderStatuses, e1);
    LiteralRoundTrip(",", e1[1..]);
    BoolFieldRoundTrip("passwordChanges", n.passwordChanges, e2);
    LiteralRoundTrip(",", e2[1..]);
    BoolFieldRoundTrip("specialOffers", n.specialOffers, e3);
    LiteralRoundTrip(",", e3[1..]);
    BoolFieldRoundTrip("newsletter", n.newsletter, e4);
    LiteralRoundTrip("}", rest);
  }

  /** Whatever the preferences parser accepts is the stored form of the
      preferences it returns, followed by the text it returns. */
  lemma PreferencesSound(d: Data)
    requires ParsePreferences(d).Some?
    ensures d == PreferencesThen(ParsePreferences(d).value.0, ParsePreferences(d).value.1)
  {
    var d1 := Literal("{", d).value;
    BoolFieldSound("orderStatuses", d1);
    var (o, d2) := BoolField("orderStatuses", d1).value;
    var d3 := Literal(",", d2).value;
    BoolFieldSound("passwordChanges", d3);
    var (p, d4) := BoolField("passwordChanges", d3).value;
    var d5 := Literal(",", d4).value;
    BoolFieldSound("specialOffers", d5);
    var (s, d6) := BoolField("specialOffers", d5).value;
    var d7 := Literal(",", d6).value;
    BoolFieldSound("newsletter", d7);
    var (w, d8) := BoolField("newsletter", d7).value;
    var d9 := Literal("}", d8).value;
    assert ParsePreferences(d) == Some((NotificationPreferences(o, p, s, w), d9));
  }

  /** Decoding the stored form of a profile gives the profile back. */
  lemma DecodeEncode(p: PersonaInfo)
    ensures Decode(Encode(p)) == Some(p)
  {
    var e4 := "," + (Member("notificationPreferences") + PreferencesThen(p.notificationPreferences, "}"));
    var e3 := "," + (Member("phoneNumber") + (Quote(p.phoneNumber) + e4));
    var e2 := "," + (Member("lastName") + (Quote(p.lastName) + e3));
    var e1 := "," + (Member("email") + (Quote(p.email) + e2));
    var e0 := Member("firstName") + (Quote(p.firstName) + e1);
    LiteralRoundTrip("{", e0);
    StringFieldRoundTrip("firstName", p.firstName, e1);
    LiteralRoundTrip(",", e1[1..]);
    StringFieldRoundTrip("email", p.email, e2);
    LiteralRoundTrip(",", e2[1..]);
    StringFieldRoundTrip("lastName", p.lastName, e3);
    LiteralRoundTrip(",", e3[1..]);
    StringFieldRoundTrip("phoneNumber", p.phoneNumber, e4);
    LiteralRoundTrip(",", e4[1..]);
    LiteralRoundTrip(Member("notificationPreferences"), PreferencesThen(p.notificationPreferences, "}"));
    PreferencesRoundTrip(p.notificationPreferences, "}");
    LiteralRoundTrip("}", []);
  }

  /** The decoder accepts nothing but stored forms: a text that decodes to a
      profile is exactly that profile's stored form. */
  lemma EncodeDecode(d: Data)
    requires Decode(d).Some?
    ensures Encode(Decode(d).value) == d
  {
    var d1 := Literal("{", d).value;
    StringFieldSound("firstName", d1);
    var (f, d2) := StringField("firstName", d1).value;
    var d3 := Literal(",", d2).value;
    StringFieldSound("email", d3);
    var (e, d4) := StringField("email", d3).value;
    var d5 := Literal(",", d4).value;
    StringFieldSound("lastName", d5);
    var (l, d6) := StringField("lastName", d5).value;
    var d7 := Literal(",", d6).value;
    StringFieldSound("phoneNumber", d7);
    var (ph, d8) := StringField("phoneNumber", d7).value;
    var d9 := Literal(",", d8).value;
    var d10 := Literal(Member("notificationPreferences"), d9).value;
    PreferencesSound(d10);
    var (n, d11) := ParsePreferences(d10).value;
    var d12 := Literal("}", d11).value;
    assert Decode(d) == if d12 == [] then Some(PersonaInfo(f, e, l, ph, n)) else None;
    assert d11 == "}";
    assert d == "{" + (Member("firstName") + (Quote(f)
              + ("," + (Member("email") + (Quote(e)
              + ("," + (Member("lastName") + (Quote(l)
              + ("," + (Member("phoneNumber") + (Quote(ph)
              + ("," + (Member("notificationPreferences") + PreferencesThen(n, "}"))))))))))))));
  }

  // ---------------------------------------------------------------------------
  // The key-value store and the one key the profile lives under

  const Key: string := "personalInfo"

  type Store = map<string, Data>

  /** The store after the profile is saved: the key holds the profile's
      stored form, replacing whatever it held, and every other key is as it
      was. */
  function Saved(store: Store, p: PersonaInfo): (r: Store)
    ensures r.Keys == store.Keys + {Key}
    ensures r[Key] == Encode(p)
    ensures forall k :: k in store && k != Key ==> r[k] == store[k]
  {
    store[Key := Encode(p)]
  }

  /** The store after the profile is deleted: the key is gone and every other
      key is as it was. */
  function Deleted(store: Store): (r: Store)
    ensures r.Keys == store.Keys - {Key}
    ensures forall k :: k in r ==> r[k] == store[k]
  {
    store - {Key}
  }

  /** The saved profile, or None when nothing is stored under the key or what
      is stored there does not decode. Whatever it returns is exactly what the
      key holds. */
  function LoadPersonalInfo(store: Store): (r: Option<PersonaInfo>)
    ensures Key !in store ==> r == None
    ensures r.Some? ==> Key in store && store[Key] == Encode(r.value)
  {
    if Key in store then
      var info := Decode(store[Key]);
      if info.Some? then EncodeDecode(store[Key]); info else None
    else None
  }

  /** Loading after saving gives back the saved profile. */
  lemma LoadSaved(store: Store, p: PersonaInfo)
    ensures LoadPersonalInfo(Saved(store, p)) == Some(p)
  {
    DecodeEncode(p);
  }

  /** Loading after deleting finds nothing, whatever was saved before. */
  lemma LoadDeleted(store: Store)
    ensures LoadPersonalInfo(Deleted(store)) == None
  {
  }

  /** Text under the key that does not open with a brace is not a profile. */
  lemma LoadRejectsForeignData(store: Store)
    requires Key in store && (store[Key] == [] || store[Key][0] != '{')
    ensures LoadPersonalInfo(store) == None
  {
  }

  /** A second save replaces the first entirely. */
  lemma SaveOverwrites(store: Store, p: PersonaInfo, q: PersonaInfo)
    ensures Saved(Saved(store, p), q) == Saved(store, q)
  {
  }

  /** A delete undoes any save before it. */
  lemma DeleteAfterSave(store: Store, p: PersonaInfo)
    ensures Deleted(Saved(store, p)) == Deleted(store)
  {
  }

  /** Deleting twice is deleting once. */
  lemma DeleteIdempotent(store: Store)
    ensures Deleted(Deleted(store)) == Deleted(store)
  {
  }
}
