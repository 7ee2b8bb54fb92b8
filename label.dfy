/**
 * The status label the bot gives its voice channel while a track plays:
 * the track's file name without a trailing ".mp3" and without trailing
 * whitespace, behind a fixed prefix, cut to at most 100 characters.
 */
module ChannelLabel {

  import Listing

  /** Text written before the cleaned track name. */
  const Prefix: string := "Tempo.Radio | Now playing: "

  /** The label is cut with slice(0, 100). */
  const MaxLength: nat := 100

  /** The extension removed from the end of a file name; matched case-sensitively. */
  const Mp3: string := ".mp3"

  /**
   * The characters String.prototype.trimEnd removes: the ECMAScript
   * WhiteSpace code points (tab, vertical tab, form feed, the byte order
   * mark and every space separator) and the LineTerminator code points.
   */
  predicate IsWhitespace(c: char): (b: bool)
    ensures c < '\U{0080}' ==> (b <==> c in "\t\n\U{000B}\U{000C}\r ")
    ensures '0' <= c <= '9' || 'A' <= c <= 'Z' || 'a' <= c <= 'z' || c == '.' ==> !b
  {
    || c == '\t' || c == '\U{000B}' || c == '\U{000C}' || c == '\U{FEFF}'
    || c == ' ' || c == '\U{00A0}' || c == '\U{1680}' || '\U{2000}' <= c <= '\U{200A}'
    || c == '\U{202F}' || c == '\U{205F}' || c == '\U{3000}'
    || c == '\n' || c == '\r' || c == '\U{2028}' || c == '\U{2029}'
  }

  predicate EndsWith(s: string, suffix: string) {
    |suffix| <= |s| && s[|s| - |suffix|..] == suffix
  }

  /** name.replace(/\.mp3$/, ""): the pattern is anchored at the end of the whole string. */
  function StripMp3(name: string): (r: string)
    ensures r <= name
    ensures EndsWith(name, Mp3) ==> r + Mp3 == name
    ensures !EndsWith(name, Mp3) ==> r == name
  {
    if EndsWith(name, Mp3) then name[..|name| - |Mp3|] else name
  }

  /**
   * s.trimEnd(): the longest prefix of s that does not end in whitespace
   * and leaves only whitespace behind it.
   */
  function TrimEnd(s: string): (r: string)
    ensures r <= s
    ensures r == [] || !IsWhitespace(r[|r| - 1])
    ensures forall i | |r| <= i < |s| :: IsWhitespace(s[i])
    decreases |s|
  {
    if s != [] && IsWhitespace(s[|s| - 1]) then TrimEnd(s[..|s| - 1]) else s
  }

  /** cleanTrackName: the extension is removed first, then trailing whitespace. */
  function CleanName(name: string): (r: string)
    ensures r <= name
    ensures r == [] || !IsWhitespace(r[|r| - 1])
    ensures EndsWith(name, Mp3) ==> |r| <= |name| - |Mp3|
    ensures forall i | |r| <= i < |StripMp3(name)| :: IsWhitespace(StripMp3(name)[i])
  {
    TrimEnd(StripMp3(name))
  }

  /** newChannelName: the prefixed cleaned name, cut to MaxLength characters. */
  function StatusLabel(name: string): (r: string)
    ensures |r| <= MaxLength
    ensures Prefix <= r
    ensures |r| == Listing.Min(MaxLength, |Prefix| + |CleanName(name)|)
    ensures r[|Prefix|..] <= CleanName(name)
    ensures |Prefix + CleanName(name)| <= MaxLength ==> r == Prefix + CleanName(name)
  {
    var full := Prefix + CleanName(name);
    if |full| <= MaxLength then full else full[..MaxLength]
  }

  /** Only the first 73 characters of the cleaned name can survive in the label. */
  lemma StatusLabelKeeps73(name: string)
    ensures |Prefix| == 27 && MaxLength - |Prefix| == 73
    ensures StatusLabel(name) == Prefix + CleanName(name)[..Listing.Min(73, |CleanName(name)|)]
  {
    var c := CleanName(name);
    var r := StatusLabel(name);
    assert |Prefix| == 27;
    var k := Listing.Min(73, |c|);
    assert |r| == 27 + k;
    assert r[..27] == Prefix;
    assert r[27..] == c[..k];
    assert r == r[..27] + r[27..];
  }

  /** A name that is too long yields a label of exactly MaxLength characters. */
  lemma LongLabelIsCut(name: string)
    requires |Prefix| + |CleanName(name)| > MaxLength
    ensures |StatusLabel(name)| == MaxLength
    ensures StatusLabel(name) == (Prefix + CleanName(name))[..MaxLength]
  {
  }

  /** Exactly one ".mp3" is removed, even when the stem itself ends in ".mp3". */
  lemma {:induction false} StripMp3Once(stem: string)
    ensures StripMp3(stem + Mp3) == stem
  {
    assert EndsWith(stem + Mp3, Mp3) by {
      assert (stem + Mp3)[|stem|..] == Mp3;
    }
    assert (stem + Mp3)[..|stem|] == stem;
  }

  /** The extension is matched case-sensitively: a name ending in ".MP3" keeps it. */
  lemma {:induction false} UpperCaseExtensionKept(name: string)
    requires EndsWith(name, ".MP3")
    ensures CleanName(name) == name
  {
    assert name[|name| - 3] == 'M';
    assert !EndsWith(name, Mp3);
    assert name[|name| - 1] == '3';
    CleanNameUnchanged(name);
  }

  /** Any prefix with the properties trimEnd promises is the result of trimEnd. */
  lemma {:induction false} TrimEndUnique(s: string, p: string)
    requires p <= s
    requires p == [] || !IsWhitespace(p[|p| - 1])
    requires forall i | |p| <= i < |s| :: IsWhitespace(s[i])
    ensures p == TrimEnd(s)
  {
    var r := TrimEnd(s);
    assert |p| == |r|;
    assert p == s[..|p|] == r;
  }

  /** Trimming twice is trimming once. */
  lemma TrimEndIdempotent(s: string)
    ensures TrimEnd(TrimEnd(s)) == TrimEnd(s)
  {
  }

  /** A name comes through cleaning unchanged exactly when it has no ".mp3" ending and no trailing whitespace. */
  lemma {:induction false} CleanNameUnchanged(name: string)
    ensures CleanName(name) == name <==>
      !EndsWith(name, Mp3) && (name == [] || !IsWhitespace(name[|name| - 1]))
  {
    if !EndsWith(name, Mp3) && (name == [] || !IsWhitespace(name[|name| - 1])) {
      TrimEndUnique(name, name);
    }
  }

  /** The worked example of a typical file name. */
  lemma SongOneLabel()
    ensures StatusLabel("Song One.mp3") == "Tempo.Radio | Now playing: Song One"
  {
    StripMp3Once("Song One");
    assert "Song One.mp3" == "Song One" + Mp3;
    TrimEndUnique("Song One", "Song One");
  }

  /** Edge cases of the extension and whitespace handling. */
  lemma CleanNameExamples()
    ensures CleanName("a.mp3.mp3") == "a.mp3"
    ensures CleanName("x.mp3 ") == "x.mp3"
    ensures CleanName("Loud.MP3") == "Loud.MP3"
  {
    StripMp3Once("a.mp3");
    assert "a.mp3.mp3" == "a.mp3" + Mp3;
    TrimEndUnique("a.mp3", "a.mp3");
    assert !EndsWith("x.mp3 ", Mp3);
    TrimEndUnique("x.mp3 ", "x.mp3");
    assert !EndsWith("Loud.MP3", Mp3);
    TrimEndUnique("Loud.MP3", "Loud.MP3");
  }
}
