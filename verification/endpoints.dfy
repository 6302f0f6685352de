/** The candidate upstream endpoints of the chat route and how each full URL
    is built from a base URL. */
module Endpoints {
  import opened Strings

  /** Base URLs tried by the chat route, in priority order. */
  const AlternativeBaseUrls: seq<string> := [
    "https://nano-gpt.com/api/v1",
    "http://nano-gpt.com/api/v1",
    "https://api.nanogpt.com",
    "http://api.nanogpt.com",
    "https://nanogpt.com/api/v1",
    "http://nanogpt.com/api/v1"
  ]

  /** A base URL containing this text is taken to be in the official format. */
  const OfficialMarker := "nano-gpt.com/api/v1"
  const OfficialSuffix := "/chat/completions"
  const LegacySuffix := "/v1/chat/completions"

  /** The path appended to a base URL: the official one exactly when the base
      contains the marker, the OpenAI-style legacy one otherwise. */
  function EndpointSuffix(base: string): (suffix: string)
    ensures suffix == OfficialSuffix <==> Contains(base, OfficialMarker)
    ensures suffix == LegacySuffix <==> !Contains(base, OfficialMarker)
  {
    if Contains(base, OfficialMarker) then OfficialSuffix else LegacySuffix
  }

  /** The URL posted to for a base URL: the base followed by its suffix. */
  function FullUrl(base: string): (url: string) {
    base + EndpointSuffix(base)
  }

  /** A posted URL keeps its base, continues with the chosen suffix, and
      always ends in `/chat/completions`. */
  lemma FullUrlShape(base: string)
    ensures IsPrefix(base, FullUrl(base))
    ensures FullUrl(base)[|base|..] == EndpointSuffix(base)
    ensures IsSuffix(OfficialSuffix, FullUrl(base))
  {
    var suffix := EndpointSuffix(base);
    assert IsSuffix(OfficialSuffix, suffix) by {
      assert LegacySuffix[3..] == OfficialSuffix;
    }
    SuffixOfAppend(OfficialSuffix, base, suffix);
    assert (base + suffix)[..|base|] == base;
  }

  /** The URL tried for candidate `i`. */
  function CandidateUrl(i: nat): (url: string)
    requires i < |AlternativeBaseUrls|
  {
    FullUrl(AlternativeBaseUrls[i])
  }

  lemma MarkerAfter(scheme: string)
    ensures EndpointSuffix(scheme + OfficialMarker) == OfficialSuffix
  {
    var base := scheme + OfficialMarker;
    assert base[|scheme|..|scheme| + |OfficialMarker|] == OfficialMarker;
    assert OccursAt(base, OfficialMarker, |scheme|);
  }

  lemma MarkerAbsentWithoutHyphen(base: string)
    requires '-' !in base
    ensures EndpointSuffix(base) == LegacySuffix
  {
    assert OfficialMarker[4] == '-';
    MissingCharacterExcludes(base, OfficialMarker, '-');
  }

  lemma OfficialUrl(i: nat, scheme: string, url: string)
    requires i < |AlternativeBaseUrls|
    requires AlternativeBaseUrls[i] == scheme + OfficialMarker
    requires url == AlternativeBaseUrls[i] + OfficialSuffix
    ensures CandidateUrl(i) == url
  {
    MarkerAfter(scheme);
  }

  lemma LegacyUrl(i: nat)
    requires i < |AlternativeBaseUrls|
    requires '-' !in AlternativeBaseUrls[i]
    ensures CandidateUrl(i) == AlternativeBaseUrls[i] + LegacySuffix
  {
    MarkerAbsentWithoutHyphen(AlternativeBaseUrls[i]);
  }

  // The literal URLs are proved one candidate per lemma: a single lemma
  // holding all six string equalities exceeds the solver's budget.
  lemma Url0() ensures CandidateUrl(0) == "https://nano-gpt.com/api/v1/chat/completions" {
    var base := "https://nano-gpt.com/api/v1";
    assert AlternativeBaseUrls[0] == base;
    assert base == "https://" + OfficialMarker;
    assert base + OfficialSuffix == "https://nano-gpt.com/api/v1/chat/completions";
    OfficialUrl(0, "https://", "https://nano-gpt.com/api/v1/chat/completions");
  }

  lemma Url1() ensures CandidateUrl(1) == "http://nano-gpt.com/api/v1/chat/completions" {
    var base := "http://nano-gpt.com/api/v1";
    assert AlternativeBaseUrls[1] == base;
    assert base == "http://" + OfficialMarker;
    assert base + OfficialSuffix == "http://nano-gpt.com/api/v1/chat/completions";
    OfficialUrl(1, "http://", "http://nano-gpt.com/api/v1/chat/completions");
  }

  lemma Url2() ensures CandidateUrl(2) == "https://api.nanogpt.com/v1/chat/completions" {
    var base := "https://api.nanogpt.com";
    assert AlternativeBaseUrls[2] == base;
    assert '-' !in base;
    LegacyUrl(2);
    assert base + LegacySuffix == "https://api.nanogpt.com/v1/chat/completions";
  }

  lemma Url3() ensures CandidateUrl(3) == "http://api.nanogpt.com/v1/chat/completions" {
    var base := "http://api.nanogpt.com";
    assert AlternativeBaseUrls[3] == base;
    assert '-' !in base;
    LegacyUrl(3);
    assert base + LegacySuffix == "http://api.nanogpt.com/v1/chat/completions";
  }

  lemma Url4() ensures CandidateUrl(4) == "https://nanogpt.com/api/v1/v1/chat/completions" {
    var base := "https://nanogpt.com/api/v1";
    assert AlternativeBaseUrls[4] == base;
    assert '-' !in base;
    LegacyUrl(4);
    assert base + LegacySuffix == "https://nanogpt.com/api/v1/v1/chat/completions";
  }

  lemma Url5() ensures CandidateUrl(5) == "http://nanogpt.com/api/v1/v1/chat/completions" {
    var base := "http://nanogpt.com/api/v1";
    assert AlternativeBaseUrls[5] == base;
    assert '-' !in base;
    LegacyUrl(5);
    assert base + LegacySuffix == "http://nanogpt.com/api/v1/v1/chat/completions";
  }

  /** The six URLs the chat route tries, in order. The hyphen-less
      `nanogpt.com/api/v1` bases fail the marker test, so they are given the
      legacy suffix and end up with a doubled `/v1/v1` segment. */
  lemma CandidateUrlsInOrder()
    ensures CandidateUrl(0) == "https://nano-gpt.com/api/v1/chat/completions"
    ensures CandidateUrl(1) == "http://nano-gpt.com/api/v1/chat/completions"
    ensures CandidateUrl(2) == "https://api.nanogpt.com/v1/chat/completions"
    ensures CandidateUrl(3) == "http://api.nanogpt.com/v1/chat/completions"
    ensures CandidateUrl(4) == "https://nanogpt.com/api/v1/v1/chat/completions"
    ensures CandidateUrl(5) == "http://nanogpt.com/api/v1/v1/chat/completions"
  {
    Url0(); Url1(); Url2(); Url3(); Url4(); Url5();
  }
}
