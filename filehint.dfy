/**
 * The optional file-name check: when the lower-cased name of the uploaded
 * file contains none of a fixed list of imaging keywords, an informational
 * tip is shown. Matching is by substring, not by whole word.
 */
module FileHint {
  import opened Text

  const Keywords: seq<string> := ["xray", "ct", "mri", "usg", "ultrasound", "scan", "radiology"]

  /** Python's `any(k in name for k in keys)`. */
  function AnyKeyword(keys: seq<string>, name: string): bool
  {
    if keys == [] then false
    else Contains(name, keys[0]) || AnyKeyword(keys[1..], name)
  }

  /** The scan over the keyword list succeeds exactly when some keyword occurs in the name. */
  lemma {:induction false} AnyKeywordOccurs(keys: seq<string>, name: string)
    ensures AnyKeyword(keys, name) <==> exists j :: 0 <= j < |keys| && Occurs(keys[j], name)
  {
    if keys != [] {
      ContainsOccurs(name, keys[0]);
      AnyKeywordOccurs(keys[1..], name);
      if exists j :: 0 <= j < |keys| && Occurs(keys[j], name) {
        var j :| 0 <= j < |keys| && Occurs(keys[j], name);
        if j > 0 {
          assert keys[1..][j - 1] == keys[j];
        }
      }
      if AnyKeyword(keys[1..], name) {
        var j :| 0 <= j < |keys[1..]| && Occurs(keys[1..][j], name);
        assert keys[j + 1] == keys[1..][j];
      }
    }
  }

  /** Whether the tip is shown for an uploaded file name. */
  function ShowTip(fileName: string): (tip: bool)
    ensures tip <==> forall j :: 0 <= j < |Keywords| ==> !Occurs(Keywords[j], Lower(fileName))
  {
    AnyKeywordOccurs(Keywords, Lower(fileName));
    !AnyKeyword(Keywords, Lower(fileName))
  }

  /** The check is case-insensitive for ASCII letters. */
  lemma TipIgnoresCase(fileName: string)
    ensures ShowTip(Lower(fileName)) == ShowTip(fileName)
  {
    LowerIdempotent(fileName);
  }

  /** Any name that contains a keyword, even inside another word, suppresses the tip. */
  lemma {:induction false} KeywordSuppressesTip(prefix: string, j: nat, rest: string)
    requires j < |Keywords|
    ensures !ShowTip(prefix + Keywords[j] + rest)
  {
    var name := prefix + Keywords[j] + rest;
    var k := Keywords[j];
    assert forall i :: 0 <= i < |k| ==> 'a' <= k[i] <= 'z';
    assert Lower(name)[|prefix|..|prefix| + |k|] == k;
    assert OccursAt(k, Lower(name), |prefix|);
  }

  /** "doctor.png" holds "ct" inside a word, so no tip is shown for it. */
  lemma SubstringNotWord()
    ensures !ShowTip("doctor.png")
  {
    assert "do" + Keywords[1] + "or.png" == "doctor.png";
    KeywordSuppressesTip("do", 1, "or.png");
  }

  /** Upper-case keywords count as well. */
  lemma UpperCaseKeyword()
    ensures !ShowTip("CHEST_XRAY.PNG")
  {
    var low := Lower("CHEST_XRAY.PNG");
    assert low[6] == 'x' && low[7] == 'r' && low[8] == 'a' && low[9] == 'y';
    assert low[6..10] == Keywords[0];
    assert OccursAt(Keywords[0], low, 6);
  }

  /** A name with no keyword in it gets the tip. */
  lemma PlainNameGetsTip()
    ensures ShowTip("photo.png")
  {
    var name := "photo.png";
    assert Lower(name) == name;
    forall j | 0 <= j < |Keywords|
      ensures !Occurs(Keywords[j], Lower(name))
    {
      OccurrenceChars(Keywords[j], name);
      assert Keywords[j][0] !in name;
    }
  }
}
