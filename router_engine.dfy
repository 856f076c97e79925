/** The difficulty classifier: a prompt is put in one of three tiers by two
    keyword checks on its lower-cased text, then by its length. */
module RouterEngine {
  import opened Strings

  datatype Tier = Simple | Medium | Hard {
    /** The tier as the classifier spells it. */
    function Name(): (s: string)
      ensures s in {"SIMPLE", "MEDIUM", "HARD"}
    {
      match this
      case Simple => "SIMPLE"
      case Medium => "MEDIUM"
      case Hard => "HARD"
    }
  }

  /** Words asking for live data. */
  const RecencyKeywords: seq<string> := ["2025", "latest", "news", "price", "today"]
  /** Words marking a demanding request. */
  const ComplexKeywords: seq<string> := ["code", "debug", "architecture", "analysis"]
  /** Prompts shorter than this, without keywords, are SIMPLE. */
  const SimpleLengthLimit: nat := 50

  /** `any(w in text for w in words)`. */
  predicate MentionsAny(text: string, words: seq<string>): (r: bool)
    ensures words == [] ==> !r
    ensures forall k | 0 <= k < |words| :: Contains(text, words[k]) ==> r
  {
    exists k | 0 <= k < |words| :: Contains(text, words[k])
  }

  /** Checking two lists one after the other is checking their concatenation. */
  lemma MentionsEither(text: string, a: seq<string>, b: seq<string>)
    ensures MentionsAny(text, a + b) <==> MentionsAny(text, a) || MentionsAny(text, b)
  {
    if MentionsAny(text, a + b) {
      var k :| 0 <= k < |a + b| && Contains(text, (a + b)[k]);
      if k >= |a| {
        assert (a + b)[k] == b[k - |a|];
      }
    }
    assert forall k | 0 <= k < |a| :: a[k] == (a + b)[k];
    assert forall k | 0 <= k < |b| :: b[k] == (a + b)[|a| + k];
  }

  /** Some keyword of either list occurs in the lower-cased prompt. */
  predicate HasKeyword(prompt: string) {
    MentionsAny(Lower(prompt), RecencyKeywords) || MentionsAny(Lower(prompt), ComplexKeywords)
  }

  function ClassifyDifficulty(prompt: string): (t: Tier)
    ensures MentionsAny(Lower(prompt), RecencyKeywords) ==> t == Hard
    ensures t == Hard <==> HasKeyword(prompt)
    ensures t == Simple <==> !HasKeyword(prompt) && |prompt| < SimpleLengthLimit
    ensures t == Medium <==> !HasKeyword(prompt) && |prompt| >= SimpleLengthLimit
  {
    var lower := Lower(prompt);
    if MentionsAny(lower, RecencyKeywords) then Hard
    else if MentionsAny(lower, ComplexKeywords) then Hard
    else if |prompt| < SimpleLengthLimit then Simple
    else Medium
  }

  /** Matching ignores case: prompts equal up to case get the same tier. */
  lemma CaseInsensitive(p: string, q: string)
    requires Lower(p) == Lower(q)
    ensures ClassifyDifficulty(p) == ClassifyDifficulty(q)
  {
    assert |p| == |Lower(p)| == |Lower(q)| == |q|;
  }

  /** A keyword written in any case, anywhere in the prompt (inside a longer
      word too), makes the prompt HARD whatever its length. */
  lemma KeywordAnywhereIsHard(before: string, word: string, after: string)
    requires Lower(word) in RecencyKeywords || Lower(word) in ComplexKeywords
    ensures ClassifyDifficulty(before + word + after) == Hard
  {
    var p := before + word + after;
    LowerConcat(before + word, after);
    LowerConcat(before, word);
    assert Lower(p) == Lower(before) + Lower(word) + Lower(after);
    assert OccursAt(Lower(word), Lower(word), 0);
    ContainsInContext(Lower(before), Lower(word), Lower(after), Lower(word));
    if Lower(word) in RecencyKeywords {
      var k :| 0 <= k < |RecencyKeywords| && RecencyKeywords[k] == Lower(word);
      assert Contains(Lower(p), RecencyKeywords[k]);
    } else {
      var k :| 0 <= k < |ComplexKeywords| && ComplexKeywords[k] == Lower(word);
      assert Contains(Lower(p), ComplexKeywords[k]);
    }
  }

  /** Adding text around a HARD prompt keeps it HARD. */
  lemma HardStaysHard(before: string, prompt: string, after: string)
    requires ClassifyDifficulty(prompt) == Hard
    ensures ClassifyDifficulty(before + prompt + after) == Hard
  {
    var p := before + prompt + after;
    LowerConcat(before + prompt, after);
    LowerConcat(before, prompt);
    assert Lower(p) == Lower(before) + Lower(prompt) + Lower(after);
    if MentionsAny(Lower(prompt), RecencyKeywords) {
      var k :| 0 <= k < |RecencyKeywords| && Contains(Lower(prompt), RecencyKeywords[k]);
      ContainsInContext(Lower(before), Lower(prompt), Lower(after), RecencyKeywords[k]);
    } else {
      var k :| 0 <= k < |ComplexKeywords| && Contains(Lower(prompt), ComplexKeywords[k]);
      ContainsInContext(Lower(before), Lower(prompt), Lower(after), ComplexKeywords[k]);
    }
  }

  lemma UpperCaseNewsIsHard()
    ensures ClassifyDifficulty("NEWS") == Hard
  {
    assert Lower("NEWS") == "news" by {
      assert forall i | 0 <= i < 4 :: Lower("NEWS")[i] == "news"[i];
    }
    assert "news" == RecencyKeywords[2];
    KeywordAnywhereIsHard("", "NEWS", "");
    assert "" + "NEWS" + "" == "NEWS";
  }

  /** "barcode" contains "code". */
  lemma BarcodeIsHard()
    ensures ClassifyDifficulty("barcode") == Hard
  {
    assert Lower("code") == "code" by {
      assert forall i | 0 <= i < 4 :: Lower("code")[i] == "code"[i];
    }
    assert "code" == ComplexKeywords[0];
    KeywordAnywhereIsHard("bar", "code", "");
    assert "bar" + "code" + "" == "barcode";
  }

  lemma LatestNewsIsHard(before: string, after: string)
    ensures ClassifyDifficulty(before + "latest news" + after) == Hard
  {
    assert Lower("news") == "news" by {
      assert forall i | 0 <= i < 4 :: Lower("news")[i] == "news"[i];
    }
    assert "news" == RecencyKeywords[2];
    KeywordAnywhereIsHard(before + "latest ", "news", after);
    assert before + "latest " + "news" + after == before + "latest news" + after;
  }

  lemma HiIsSimple()
    ensures ClassifyDifficulty("hi") == Simple
  {
  }

  /** Fifty characters without a keyword: MEDIUM. */
  lemma PlainLongPromptIsMedium()
    ensures ClassifyDifficulty(seq(50, _ => 'z')) == Medium
  {
    var p: string := seq(50, _ => 'z');
    var words := RecencyKeywords + ComplexKeywords;
    forall k | 0 <= k < |words|
      ensures !Contains(Lower(p), words[k])
    {
      AbsentFirstChar(Lower(p), words[k]);
    }
    MentionsEither(Lower(p), RecencyKeywords, ComplexKeywords);
  }
}
