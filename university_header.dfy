/**
 * The initials badge of the institutional header (`UniversityHeaderOnly`)
 * and of the profile page: the first letters of the first two words of the
 * user's name, else the first letter of the email, else `"US"`.
 */
module UniversityHeader {
  import opened Wrappers
  import opened Text
  import opened Session

  /** The longest prefix of `s` without white space. */
  function TakeWord(s: string): (w: string)
    ensures |w| <= |s|
    ensures forall i :: 0 <= i < |w| ==> w[i] == s[i] && !IsSpace(w[i])
    ensures |s| > 0 && !IsSpace(s[0]) ==> |w| > 0
    ensures |w| == |s| || IsSpace(s[|w|])
  {
    if |s| == 0 || IsSpace(s[0]) then [] else [s[0]] + TakeWord(s[1..])
  }

  /**
   * `s.trim().split(/\s+/)` for a string that is not blank: its maximal runs
   * of non-space characters, the first one starting at the first character
   * `trim()` keeps.
   */
  function Words(s: string): (ws: seq<string>)
    ensures forall i :: 0 <= i < |ws| ==> |ws[i]| > 0 && forall k :: 0 <= k < |ws[i]| ==> !IsSpace(ws[i][k])
    ensures |ws| == 0 <==> IsBlank(s)
    ensures |ws| > 0 ==> ws[0][0] == TrimStart(s)[0]
    decreases |s|
  {
    if |s| == 0 then []
    else if IsSpace(s[0]) then
      assert IsBlank(s) <==> IsBlank(s[1..]);
      Words(s[1..])
    else
      var w := TakeWord(s);
      [w] + Words(s[|w|..])
  }

  /** `nombre && nombre.trim().length > 0`. */
  predicate UsableName(nombre: Option<string>) {
    nombre.Some? && !IsBlank(nombre.value)
  }

  lemma UsableNameIsTrimTest(nombre: Option<string>)
    ensures UsableName(nombre) <==> nombre.Some? && nombre.value != "" && |Trim(nombre.value)| > 0
  {
    if nombre.Some? {
      TrimEmptyIffBlank(nombre.value);
    }
  }

  /** The upper-cased first letters of the first one or two words. */
  function LeadLetters(ws: seq<string>): (r: string)
    requires |ws| > 0 && forall i :: 0 <= i < |ws| ==> |ws[i]| > 0
    ensures 1 <= |r| <= 2 && IsUpperCase(r)
    ensures r[0] == UpperChar(ws[0][0])
    ensures |r| == 2 <==> |ws| >= 2
    ensures |ws| >= 2 ==> r[1] == UpperChar(ws[1][0])
  {
    if |ws| > 1 then [UpperChar(ws[0][0]), UpperChar(ws[1][0])] else [UpperChar(ws[0][0])]
  }

  /** The name branch of `getInitials`: the first letters of the first two words, upper-cased. */
  function NameInitials(name: string): (r: string)
    requires !IsBlank(name)
    ensures 1 <= |r| <= 2 && IsUpperCase(r)
    ensures r[0] == UpperChar(TrimStart(name)[0])
    ensures |r| == 2 <==> |Words(name)| >= 2
    ensures |Words(name)| >= 2 ==> r[1] == UpperChar(Words(name)[1][0])
  {
    LeadLetters(Words(name))
  }

  /** `getInitials`. */
  function Initials(nombre: Option<string>, email: Option<string>): (r: string)
    ensures 1 <= |r| <= 2 && IsUpperCase(r)
    ensures UsableName(nombre) ==>
      r[0] == UpperChar(TrimStart(nombre.value)[0])
      && (|r| == 2 <==> |Words(nombre.value)| >= 2)
    ensures UsableName(nombre) && |Words(nombre.value)| >= 2 ==> r[1] == UpperChar(Words(nombre.value)[1][0])
    ensures !UsableName(nombre) && email.Some? && email.value != "" ==> r == [UpperChar(email.value[0])]
    ensures !UsableName(nombre) && (email.None? || email.value == "") ==> r == "US"
  {
    if UsableName(nombre) then
      NameInitials(nombre.value)
    else if email.Some? && email.value != "" then
      UpperCaseFacts([email.value[0]]);
      ToUpper([email.value[0]])
    else
      assert IsUpperCase("US");
      "US"
  }

  /**
   * The header's one-shot initialiser: no stored session, text that does not
   * parse, or a value without fields all give `"US"`; a stored user gives its
   * initials.
   */
  function HeaderInitials(raw: Option<string>, parse: string -> ParseResult): (r: string)
    ensures 1 <= |r| <= 2
    ensures raw.None? || raw.value == "" || !parse(raw.value).Object? ==> r == "US"
    ensures raw.Some? && raw.value != "" && parse(raw.value).Object? ==>
      r == Initials(parse(raw.value).user.nombre, parse(raw.value).user.email)
  {
    if raw.None? || raw.value == "" then "US"
    else match parse(raw.value)
      case Object(u) => Initials(u.nombre, u.email)
      case _ => "US"
  }

  /** For a session the pages accept, the header shows a letter of the user's own name or email. */
  lemma SignedInInitials(raw: Option<string>, parse: string -> ParseResult)
    requires Check(raw, parse).Valid?
    ensures var u := Check(raw, parse).user;
      HeaderInitials(raw, parse) == Initials(u.nombre, u.email)
      && (!UsableName(u.nombre) ==> HeaderInitials(raw, parse) == [UpperChar(u.email.value[0])])
  {
  }
}
