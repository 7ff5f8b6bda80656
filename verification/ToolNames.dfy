/**
  Tool names on the wire: apiToolName and the map back, m_toolNames, of
  backend/api/anthropic-provider.cpp, backend/api/openai-provider.cpp and
  backend/api/gemini-provider.cpp.
 */
module ToolNames {
  import opened Common

  /** What an API takes as a name: whether dots are allowed, and how long it may be. */
  datatype Form = Form(dots: bool, limit: nat)

  const ANTHROPIC := Form(false, 128)
  const OPENAI := Form(false, 64)
  const GEMINI := Form(true, 64)

  predicate IsApiChar(form: Form, c: char) {
    'a' <= c <= 'z' || 'A' <= c <= 'Z' || '0' <= c <= '9' || c == '_' || c == '-' || (form.dots && c == '.')
  }

  predicate AllApiChars(form: Form, s: string) {
    forall i | 0 <= i < |s| :: IsApiChar(form, s[i])
  }

  function ApiChar(form: Form, c: char): (r: string)
    ensures AllApiChars(form, r) && (IsApiChar(form, c) ==> r == [c])
  {
    if c == ':' then "__" else if IsApiChar(form, c) then [c] else "_"
  }

  function ApiChars(form: Form, name: string): (r: string)
    ensures AllApiChars(form, r)
    ensures AllApiChars(form, name) ==> r == name
  {
    if name == "" then "" else ApiChar(form, name[0]) + ApiChars(form, name[1..])
  }

  /** The name a tool is sent under: only characters the API takes and no more of them than it
      takes, and a name that already is one is not touched. */
  function ApiToolName(form: Form, name: string): (r: string)
    ensures |r| <= form.limit && AllApiChars(form, r)
    ensures |name| <= form.limit && AllApiChars(form, name) ==> r == name
  {
    var out := ApiChars(form, name);
    if |out| > form.limit then out[..form.limit] else out
  }

  /** The tools a request offers: all available ones, or those on the list when there is one. */
  function Offered(available: seq<string>, allowed: seq<string>): seq<string> {
    if available == [] then [] else
    Offered(available[..|available| - 1], allowed)
    + if allowed == [] || available[|available| - 1] in allowed then [available[|available| - 1]] else []
  }

  /** The map back, after `offered` were entered behind what earlier requests entered. */
  function Entered(form: Form, known: map<string, string>, offered: seq<string>): map<string, string> {
    if offered == [] then known else
    var last := offered[|offered| - 1];
    Entered(form, known, offered[..|offered| - 1])[ApiToolName(form, last) := last]
  }

  /** The app's name of a tool the model calls. */
  function AppName(known: map<string, string>, apiName: string): string {
    if apiName in known then known[apiName] else apiName
  }

  method OfferTools(form: Form, known: map<string, string>, available: seq<string>, allowed: seq<string>)
    returns (toolNames: map<string, string>, apiNames: seq<string>)
    ensures toolNames == Entered(form, known, Offered(available, allowed))
    ensures |apiNames| == |Offered(available, allowed)|
    ensures forall i | 0 <= i < |apiNames| :: apiNames[i] == ApiToolName(form, Offered(available, allowed)[i])
  {
    hide ApiToolName, ApiChars, AllApiChars;
    toolNames, apiNames := known, [];
    for n := 0 to |available|
      invariant toolNames == Entered(form, known, Offered(available[..n], allowed))
      invariant |apiNames| == |Offered(available[..n], allowed)|
      invariant forall i | 0 <= i < |apiNames| :: apiNames[i] == ApiToolName(form, Offered(available[..n], allowed)[i])
    {
      assert available[..n + 1][..n] == available[..n];
      ghost var before := Offered(available[..n], allowed);
      if allowed != [] && available[n] !in allowed {
        assert before + [] == before;
        continue;
      }
      assert (before + [available[n]])[..|before|] == before;
      var apiName := ApiToolName(form, available[n]);
      toolNames := toolNames[apiName := available[n]];
      apiNames := apiNames + [apiName];
    }
    assert available[..|available|] == available;
  }

  /** The last tool offered under the API name that the tool at `i` is offered under. */
  function LastAs(form: Form, offered: seq<string>, i: nat): (l: nat)
    requires i < |offered|
    ensures i <= l < |offered|
  {
    var last := |offered| - 1;
    if i == last || ApiToolName(form, offered[last]) == ApiToolName(form, offered[i]) then last
    else LastAs(form, offered[..last], i)
  }

  lemma {:induction false} LastAsIsLast(form: Form, offered: seq<string>, i: nat)
    requires i < |offered|
    ensures ApiToolName(form, offered[LastAs(form, offered, i)]) == ApiToolName(form, offered[i])
    ensures forall j | LastAs(form, offered, i) < j < |offered| ::
              ApiToolName(form, offered[j]) != ApiToolName(form, offered[i])
  {
    hide ApiToolName;
    var last := |offered| - 1;
    if i < last && ApiToolName(form, offered[last]) != ApiToolName(form, offered[i]) {
      LastAsIsLast(form, offered[..last], i);
    }
  }

  /** A call under a tool's API name reaches the last tool offered under it. */
  lemma {:induction false} LastOneAnswers(form: Form, known: map<string, string>, offered: seq<string>, i: nat)
    requires i < |offered|
    ensures AppName(Entered(form, known, offered), ApiToolName(form, offered[i])) == offered[LastAs(form, offered, i)]
  {
    hide ApiToolName;
    var last := |offered| - 1;
    if i < last && ApiToolName(form, offered[last]) != ApiToolName(form, offered[i]) {
      LastOneAnswers(form, known, offered[..last], i);
    }
  }

  /** Among tools with different names, a tool is called back by its own name if and only if
      no tool offered after it has the same API name. */
  lemma CalledBackIff(form: Form, known: map<string, string>, offered: seq<string>, i: nat)
    requires i < |offered|
    requires forall j, k | 0 <= j < k < |offered| :: offered[j] != offered[k]
    ensures AppName(Entered(form, known, offered), ApiToolName(form, offered[i])) == offered[i]
            <==> forall j | i < j < |offered| :: ApiToolName(form, offered[j]) != ApiToolName(form, offered[i])
  {
    hide ApiToolName, Entered;
    LastOneAnswers(form, known, offered, i);
    LastAsIsLast(form, offered, i);
  }

  lemma {:induction false} ApiCharsAppend(form: Form, a: string, b: string)
    ensures ApiChars(form, a + b) == ApiChars(form, a) + ApiChars(form, b)
  {
    if a == "" {
      assert a + b == b;
    } else {
      hide ApiChar, AllApiChars, IsApiChar;
      ApiCharsAppend(form, a[1..], b);
      assert (a + b)[1..] == a[1..] + b && (a + b)[0] == a[0];
      ConcatAssoc(ApiChar(form, a[0]), ApiChars(form, a[1..]), ApiChars(form, b));
    }
  }

  /** It does happen: "server:tool" and "server__tool" have the same API name, so of the two
      only the one offered later is ever called. */
  lemma ColonCollides(form: Form, known: map<string, string>, a: string, b: string)
    ensures ApiToolName(form, a + ":" + b) == ApiToolName(form, a + "__" + b)
    ensures AppName(Entered(form, known, [a + ":" + b, a + "__" + b]), ApiToolName(form, a + ":" + b)) == a + "__" + b
  {
    ApiCharsAppend(form, a + ":", b);
    ApiCharsAppend(form, a, ":");
    ApiCharsAppend(form, a + "__", b);
    ApiCharsAppend(form, a, "__");
    assert ":"[1..] == "" && "__"[1..] == "_" && "_"[1..] == "";
    assert ApiChars(form, ":") == "__" == ApiChars(form, "__");
  }

  // ------------------------------------------------------------------ a name, character by character

  /** What a character of a name is sent as: a colon as two underscores, any other that the API
      does not take as one. */
  function Sent(form: Form, c: char): string {
    if c == ':' then "__"
    else if 'a' <= c <= 'z' || 'A' <= c <= 'Z' || '0' <= c <= '9' || c == '_' || c == '-' || (c == '.' && form.dots)
    then [c] else "_"
  }

  function SentAll(form: Form, name: string): seq<string> {
    seq(|name|, i requires 0 <= i < |name| => Sent(form, name[i]))
  }

  lemma CharIsSent(form: Form, c: char)
    ensures ApiChar(form, c) == Sent(form, c)
  {}

  lemma {:induction false} CharsAreSent(form: Form, name: string)
    ensures ApiChars(form, name) == Flatten(SentAll(form, name))
  {
    if name != "" {
      CharIsSent(form, name[0]);
      hide ApiChar, Sent, AllApiChars, IsApiChar;
      CharsAreSent(form, name[1..]);
      assert SentAll(form, name)[1..] == SentAll(form, name[1..]);
    }
  }

  /** The API name is that, cut off at the limit. */
  lemma NameIsSent(form: Form, name: string)
    ensures var r, all := ApiToolName(form, name), Flatten(SentAll(form, name));
            r <= all && |r| == if |all| < form.limit then |all| else form.limit
  {
    CharsAreSent(form, name);
  }

  function Wanted(available: seq<string>, allowed: seq<string>): seq<bool> {
    seq(|available|, i requires 0 <= i < |available| => allowed == [] || available[i] in allowed)
  }

  /** The tools offered are those on the list, or all when there is no list, in order. */
  lemma {:induction false} OfferedAreWanted(available: seq<string>, allowed: seq<string>)
    ensures ArePicked(available, Wanted(available, allowed), Offered(available, allowed))
  {
    if available != [] {
      var init, last := available[..|available| - 1], available[|available| - 1];
      OfferedAreWanted(init, allowed);
      assert available == init + [last];
      assert Wanted(available, allowed) == Wanted(init, allowed) + [allowed == [] || last in allowed];
      hide ArePicked;
      PickedSnoc(init, Wanted(init, allowed), Offered(init, allowed), last, allowed == [] || last in allowed);
    }
  }

  /** A name that no offered tool has goes on meaning what it meant. */
  lemma {:induction false} OthersStay(form: Form, known: map<string, string>, offered: seq<string>, apiName: string)
    requires forall i | 0 <= i < |offered| :: ApiToolName(form, offered[i]) != apiName
    ensures AppName(Entered(form, known, offered), apiName) == AppName(known, apiName)
  {
    hide ApiToolName;
    if offered != [] {
      OthersStay(form, known, offered[..|offered| - 1], apiName);
    }
  }
}
