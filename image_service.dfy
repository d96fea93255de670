// insights/scraper/image_service.py: the pure helpers of the image service —
// the hex-to-Unsplash colour mapping, the two search-query builders, and the
// filter chain that picks the best of the images a search returned. The
// HTTP calls and the storage writes around them are not part of this model.
module ImageService {
  import opened Common
  import opened Text
  import opened Seqs
  import opened InsightsModels

  // ---------------------------------------------------------------------
  // _hex_to_unsplash_color
  // ---------------------------------------------------------------------

  /** The colour names Unsplash's search accepts. */
  const Palette: set<string> :=
    {"black_and_white", "black", "white", "yellow", "orange", "red", "purple", "magenta", "green", "teal", "blue"}

  /** The names the grayscale test gives. */
  const Greys: set<string> := {"black", "white", "black_and_white"}

  predicate IsHexDigit(c: char)
  {
    '0' <= c <= '9' || 'a' <= c <= 'f' || 'A' <= c <= 'F'
  }

  function HexDigitValue(c: char): (v: nat)
    requires IsHexDigit(c)
    ensures v < 16
  {
    if '0' <= c <= '9' then c as int - '0' as int
    else if 'a' <= c <= 'f' then c as int - 'a' as int + 10
    else c as int - 'A' as int + 10
  }

  /** s.lstrip(c): s without its leading run of c. */
  function LStripChar(s: string, c: char): (r: string)
    ensures |r| <= |s| && r == s[|s| - |r|..]
    ensures r != [] ==> r[0] != c
    ensures forall i :: 0 <= i < |s| - |r| ==> s[i] == c
  {
    if |s| > 0 && s[0] == c then LStripChar(s[1..], c) else s
  }

  /** Python's s[i:j] for 0 <= i <= j: indices past the end are clipped. */
  function Slice(s: string, i: nat, j: nat): (r: string)
    requires i <= j
    ensures |r| <= j - i
  {
    if |s| <= i then [] else if |s| <= j then s[i..] else s[i..j]
  }

  /**
   * int(t, 16) on a channel slice, which has at most two characters:
   * surrounding whitespace is ignored, one hexadecimal digit is accepted as
   * well as two, and a single digit may carry a sign. Everything else
   * (nothing, a lone sign, a non-hexadecimal character) raises ValueError,
   * which the caller turns into None.
   */
  function ParseChannel(t: string): (v: Option<int>)
    requires |t| <= 2
    ensures v.Some? ==> -15 <= v.value <= 255
  {
    ParseStripped(Strip(t))
  }

  /** The digits int() reads once the whitespace around them is gone. */
  function ParseStripped(u: string): (v: Option<int>)
    ensures |u| == 0 ==> v.None?
    ensures v.Some? ==> -15 <= v.value <= 255
  {
    if |u| == 1 && IsHexDigit(u[0]) then Some(HexDigitValue(u[0]))
    else if |u| == 2 && IsHexDigit(u[0]) && IsHexDigit(u[1]) then
      Some(16 * HexDigitValue(u[0]) + HexDigitValue(u[1]))
    else if |u| == 2 && (u[0] == '+' || u[0] == '-') && IsHexDigit(u[1]) then
      var d: int := HexDigitValue(u[1]);
      Some(if u[0] == '-' then -d else d)
    else None
  }

  /** Two hexadecimal digits parse to the byte they spell. */
  lemma TwoDigitsParse(t: string)
    requires |t| == 2 && IsHexDigit(t[0]) && IsHexDigit(t[1])
    ensures ParseChannel(t) == Some(Byte(t[0], t[1]) as int)
  {
    assert !IsSpace(t[0]) && !IsSpace(t[1]);
    LStripNoLeadingSpace(t);
    RStripNoTrailingSpace(t);
  }

  /** A slice that is empty, or holds only whitespace, does not parse. */
  lemma BlankDoesNotParse(t: string)
    requires |t| <= 2 && Strip(t) == ""
    ensures ParseChannel(t).None?
  {
  }

  function Abs(x: int): nat
  {
    if x < 0 then -x else x
  }

  /**
   * The grayscale test: every channel within 30 of the mean. With
   * sum = r + g + b, |c - sum/3| < 30 is |3c - sum| < 90; the boundary cases
   * are whole numbers, so the floating-point test agrees with this one.
   */
  predicate IsGrey(r: int, g: int, b: int)
  {
    var sum := r + g + b;
    Abs(3 * r - sum) < 90 && Abs(3 * g - sum) < 90 && Abs(3 * b - sum) < 90
  }

  /** The colour of three parsed channels, by the grayscale test and then the dominant channel. */
  function Classify(r: int, g: int, b: int): (name: string)
    ensures name in Palette
  {
    var sum := r + g + b;
    if IsGrey(r, g, b) then
      (if sum < 150 then "black" else if sum > 600 then "white" else "black_and_white")
    else if r >= g && r >= b then
      // red wins every tie for the largest channel
      (if g > 100 && b < 100 then "orange"
       else if g > 150 then "yellow"
       else if b > 100 then (if r > b then "magenta" else "purple")
       else "red")
    else if g >= b then
      (if b > 100 then "teal" else "green")
    else
      (if g > 100 then "teal" else if r > 100 then "purple" else "blue")
  }

  /** The three channel slices of a colour code, after its leading '#'s. */
  function Channels(hex: string): (rgb: (Option<int>, Option<int>, Option<int>))
  {
    SlicedChannels(LStripChar(hex, '#'))
  }

  function SlicedChannels(h: string): (rgb: (Option<int>, Option<int>, Option<int>))
  {
    (ParseChannel(Slice(h, 0, 2)), ParseChannel(Slice(h, 2, 4)), ParseChannel(Slice(h, 4, 6)))
  }

  /** _hex_to_unsplash_color */
  function HexToUnsplashColor(hex: string): (colour: Option<string>)
    ensures hex == [] || hex[0] != '#' ==> colour.None?
    ensures colour.Some? ==> colour.value in Palette
  {
    if hex == [] || hex[0] != '#' then None
    else
      var rgb := Channels(hex);
      if rgb.0.None? || rgb.1.None? || rgb.2.None? then None
      else Some(Classify(rgb.0.value, rgb.1.value, rgb.2.value))
  }

  /** A well-formed "#RRGGBB" code. */
  predicate IsColourCode(hex: string)
  {
    |hex| == 7 && hex[0] == '#' && forall i :: 1 <= i < 7 ==> IsHexDigit(hex[i])
  }

  /** The byte two hexadecimal digits spell. */
  function Byte(hi: char, lo: char): (v: nat)
    requires IsHexDigit(hi) && IsHexDigit(lo)
    ensures v < 256
  {
    16 * HexDigitValue(hi) + HexDigitValue(lo)
  }

  /** After its '#', a well-formed "#RRGGBB" code yields its three byte values. */
  lemma ColourCodeChannels(hex: string)
    requires IsColourCode(hex)
    ensures Channels(hex) == (Some(Byte(hex[1], hex[2]) as int), Some(Byte(hex[3], hex[4]) as int), Some(Byte(hex[5], hex[6]) as int))
  {
    SingleHash(hex);
    SixDigits(hex[1..]);
  }

  lemma SixDigits(h: string)
    requires |h| == 6 && forall k :: 0 <= k < 6 ==> IsHexDigit(h[k])
    ensures SlicedChannels(h) == (Some(Byte(h[0], h[1]) as int), Some(Byte(h[2], h[3]) as int), Some(Byte(h[4], h[5]) as int))
  {
    FirstSliceParses(h);
    SliceParses(h, 2);
    SliceParses(h, 4);
  }

  lemma FirstSliceParses(h: string)
    requires 2 <= |h| && IsHexDigit(h[0]) && IsHexDigit(h[1])
    ensures ParseChannel(Slice(h, 0, 2)) == Some(Byte(h[0], h[1]) as int)
  {
    assert Slice(h, 0, 2) == h[..2] == [h[0], h[1]];
    TwoDigitsParse(h[..2]);
  }

  /** A well-formed code loses exactly its one '#' to lstrip. */
  lemma SingleHash(hex: string)
    requires IsColourCode(hex)
    ensures LStripChar(hex, '#') == hex[1..]
  {
    assert hex[1] != '#';
    assert LStripChar(hex[1..], '#') == hex[1..];
  }

  lemma SliceParses(h: string, i: nat)
    requires i + 2 <= |h| && IsHexDigit(h[i]) && IsHexDigit(h[i + 1])
    ensures ParseChannel(Slice(h, i, i + 2)) == Some(Byte(h[i], h[i + 1]) as int)
  {
    assert Slice(h, i, i + 2) == [h[i], h[i + 1]];
    TwoDigitsParse([h[i], h[i + 1]]);
  }

  /** Every well-formed "#RRGGBB" code has a colour: the one its three byte values classify to. */
  lemma ColourCodeClassified(hex: string)
    requires IsColourCode(hex)
    ensures HexToUnsplashColor(hex) == Some(Classify(Byte(hex[1], hex[2]), Byte(hex[3], hex[4]), Byte(hex[5], hex[6])))
  {
    ColourCodeChannels(hex);
  }

  /** A code with at most four characters after its '#'s has an empty blue slice, and so no colour. */
  lemma ShortCodeRejected(hex: string)
    requires hex != [] && hex[0] == '#'
    requires |LStripChar(hex, '#')| <= 4
    ensures HexToUnsplashColor(hex).None?
  {
    var h := LStripChar(hex, '#');
    assert Slice(h, 4, 6) == [];
    BlankDoesNotParse([]);
  }

  /**
   * The grayscale names come from the grayscale test and from nothing else:
   * a colour is black, white or black_and_white exactly when its channels
   * are within 30 of their mean.
   */
  lemma GreyFirst(r: int, g: int, b: int)
    ensures Classify(r, g, b) in Greys <==> IsGrey(r, g, b)
  {
  }

  /** Pure yellow is reported as orange, because the orange test comes first. */
  lemma YellowReadsAsOrange()
    ensures HexToUnsplashColor("#FFFF00") == Some("orange")
  {
    var hex := "#FFFF00";
    assert hex[1] == 'F' && hex[2] == 'F' && hex[3] == 'F' && hex[4] == 'F' && hex[5] == '0' && hex[6] == '0';
    assert IsColourCode(hex);
    ColourCodeClassified(hex);
    assert Byte('F', 'F') == 255 && Byte('0', '0') == 0;
    assert Classify(255, 255, 0) == "orange";
  }

  /** Red, the first channel, wins a tie for the largest one. */
  lemma RedWinsTies(r: int, g: int, b: int)
    requires !IsGrey(r, g, b) && r == g && r >= b
    ensures Classify(r, g, b) in {"orange", "yellow", "magenta", "purple", "red"}
  {
  }

  // ---------------------------------------------------------------------
  // _build_search_query and _build_landmark_query
  // ---------------------------------------------------------------------

  /** The name parts of a place, without a blank state. */
  function NameParts(p: Place): (parts: seq<string>)
    ensures p.state != "" <==> |parts| == 3
    ensures |parts| >= 2
    ensures parts[0] == p.city && parts[|parts| - 1] == p.country
  {
    if p.state != "" then [p.city, p.state, p.country] else [p.city, p.country]
  }

  /** ImageService._build_search_query */
  function SearchQuery(p: Place): (q: string)
  {
    if p.state != "" then p.city + " " + p.state + " " + p.country else p.city + " " + p.country
  }

  /**
   * The search query and the place's label name the same parts — the state
   * only when it is not blank — joined by a space rather than a comma.
   */
  lemma SearchQuerySpec(p: Place)
    ensures SearchQuery(p) == Join(NameParts(p), " ")
    ensures PlaceLabel(p) == Join(NameParts(p), ", ")
  {
    var parts := NameParts(p);
    if p.state != "" {
      assert parts[1..] == [p.state, p.country];
      assert parts[1..][1..] == [p.country];
      assert Join(parts, " ") == p.city + " " + (p.state + " " + p.country);
      assert Join(parts, ", ") == p.city + ", " + (p.state + ", " + p.country);
    } else {
      assert parts[1..] == [p.country];
    }
  }

  /** A keyword group: the words it looks for and the tags it appends. */
  datatype KeywordGroup = KeywordGroup(words: seq<string>, tags: string)

  /** The keyword groups, in the order the landmark query tests them. */
  const Groups: seq<KeywordGroup> := [
    KeywordGroup(["palace", "fort", "temple", "mosque", "church", "cathedral", "building", "tower", "arch"],
                 " architecture landmark monument"),
    KeywordGroup(["lake", "river", "waterfall", "falls", "beach", "mountain", "hill", "valley", "peak"],
                 " landscape nature scenic view"),
    KeywordGroup(["garden", "park", "botanical"], " nature garden park"),
    KeywordGroup(["museum", "gallery", "memorial", "statue"], " cultural heritage landmark"),
    KeywordGroup(["railway", "train", "station"], " historic railway transport")
  ]

  /** The tags of a landmark no group recognises. */
  const FallbackTags := " landmark famous tourist attraction"

  /** Some word of the group occurs in the (lower-cased) name. */
  predicate Mentions(lowerName: string, g: KeywordGroup)
  {
    exists i :: 0 <= i < |g.words| && Contains(lowerName, g.words[i])
  }

  /** The index of the first group the name mentions, or |groups| when it mentions none. */
  function FirstMentioned(lowerName: string, groups: seq<KeywordGroup>): (k: nat)
    ensures k <= |groups|
    ensures k < |groups| ==> Mentions(lowerName, groups[k])
    ensures forall j :: 0 <= j < k ==> !Mentions(lowerName, groups[j])
  {
    if groups == [] then 0
    else if Mentions(lowerName, groups[0]) then 0
    else 1 + FirstMentioned(lowerName, groups[1..])
  }

  function TagsAt(k: nat): string
  {
    if k < |Groups| then Groups[k].tags else FallbackTags
  }

  /** ImageService._build_landmark_query */
  function LandmarkQuery(name: string, city: string): (q: string)
  {
    name + " " + city + TagsAt(FirstMentioned(Lower(name), Groups))
  }

  /**
   * The landmark query is the name and the city followed by exactly one set
   * of tags: those of group k precisely when k is the first group the
   * lower-cased name mentions, and the fallback precisely when it mentions
   * none.
   */
  lemma LandmarkQuerySpec(name: string, city: string)
    ensures StartsWith(LandmarkQuery(name, city), name + " " + city)
    ensures forall k :: 0 <= k < |Groups| ==>
      (LandmarkQuery(name, city) == name + " " + city + Groups[k].tags <==>
        (Mentions(Lower(name), Groups[k]) && forall j :: 0 <= j < k ==> !Mentions(Lower(name), Groups[j])))
    ensures LandmarkQuery(name, city) == name + " " + city + FallbackTags <==>
      forall j :: 0 <= j < |Groups| ==> !Mentions(Lower(name), Groups[j])
  {
    var base := name + " " + city;
    var q := LandmarkQuery(name, city);
    var m := FirstMentioned(Lower(name), Groups);
    assert q[..|base|] == base;
    forall k | 0 <= k < |Groups|
      ensures q == base + Groups[k].tags <==>
        (Mentions(Lower(name), Groups[k]) && forall j :: 0 <= j < k ==> !Mentions(Lower(name), Groups[j]))
    {
      if q == base + Groups[k].tags {
        assert TagsAt(m) == Groups[k].tags by {
          assert q[|base|..] == TagsAt(m);
          assert (base + Groups[k].tags)[|base|..] == Groups[k].tags;
        }
        DistinctTags(m, k);
      }
    }
    if q == base + FallbackTags {
      assert TagsAt(m) == FallbackTags by {
        assert q[|base|..] == TagsAt(m);
        assert (base + FallbackTags)[|base|..] == FallbackTags;
      }
      DistinctTags(m, |Groups|);
    }
  }

  /** No two positions carry the same tags. */
  lemma DistinctTags(m: nat, k: nat)
    requires m <= |Groups| && k <= |Groups|
    requires TagsAt(m) == TagsAt(k)
    ensures m == k
  {
    TagCodes(m);
    TagCodes(k);
  }

  /** Tells the six tag strings apart by their length and, for the two of length 27, their first letter. */
  function TagCode(t: string): int
  {
    |t| + if |t| > 1 && t[1] == 'h' then 100 else 0
  }

  lemma TagCodes(k: nat)
    requires k <= |Groups|
    ensures TagCode(TagsAt(k)) == [31, 29, 19, 27, 127, 35][k]
  {
    assert Groups[3].tags[1] == 'c';
    assert Groups[4].tags[1] == 'h';
    assert FallbackTags[1] == 'l';
    assert Groups[0].tags[1] == 'a' && Groups[1].tags[1] == 'l' && Groups[2].tags[1] == 'n';
  }

  lemma MentionedFirst(l: string)
    requires Contains(l, Groups[0].words[0])
    ensures TagsAt(FirstMentioned(l, Groups)) == " architecture landmark monument"
  {
    assert Mentions(l, Groups[0]);
  }

  /** A lake palace is searched as architecture: the building words are checked before the landscape words. */
  lemma LakePalaceIsArchitecture()
    ensures LandmarkQuery("Lake Palace", "Udaipur") == "Lake Palace" + " " + "Udaipur" + " architecture landmark monument"
  {
    var l := Lower("Lake Palace");
    assert l[5..11] == "palace" by {
      assert l[5] == 'p' && l[6] == 'a' && l[7] == 'l' && l[8] == 'a' && l[9] == 'c' && l[10] == 'e';
    }
    assert Contains(l, Groups[0].words[0]) by {
      assert OccursAt(l, "palace", 5);
    }
    MentionedFirst(l);
  }

  // ---------------------------------------------------------------------
  // _select_best_image
  // ---------------------------------------------------------------------

  /**
   * The fields of an Unsplash result the selection reads. A missing width or
   * height reads as 0, as img.get(..., 0) gives it.
   */
  datatype Image = Image(width: int, height: int, description: Option<string>)

  /** Phrases whose presence in a description marks an image as off-topic. */
  const IrrelevantPhrases: seq<string> := [
    "selfie", "portrait of", "close-up of person", "face of",
    "car interior", "inside car", "dashboard",
    "office interior", "restaurant interior", "indoor room"
  ]

  /** (img.get("description") or ""), lower-cased. */
  function DescriptionText(img: Image): string
  {
    if img.description.Some? then Lower(img.description.value) else ""
  }

  predicate Relevant(img: Image)
  {
    !exists i :: 0 <= i < |IrrelevantPhrases| && Contains(DescriptionText(img), IrrelevantPhrases[i])
  }

  /** Filter 1: at least 1500 by 800 pixels. */
  predicate HighRes(img: Image)
  {
    img.width >= 1500 && img.height >= 800
  }

  /** Filter 2: a landscape aspect ratio between 1.4 and 2.5. */
  predicate Landscape(img: Image)
  {
    img.height > 0 && 1.4 * img.height as real <= img.width as real <= 2.5 * img.height as real
  }

  /** Filter 3: a description longer than ten characters. */
  predicate Described(img: Image)
  {
    img.description.Some? && |img.description.value| > 10
  }

  /** The relevant images when at least three are, else all of them. */
  function WorkingSet(images: seq<Image>): (w: seq<Image>)
    ensures forall x :: x in w ==> x in images
    ensures images != [] ==> w != []
  {
    var relevant := Filter(images, Relevant);
    if |relevant| >= 3 then relevant else images
  }

  /** The high-resolution images of the working set, or its first eight when there are none. */
  function QualitySet(working: seq<Image>): (q: seq<Image>)
    ensures forall x :: x in q ==> x in working
    ensures working != [] ==> q != []
  {
    var high := Filter(working, HighRes);
    if high != [] then high
    else
      var t := Take(working, 8);
      assert forall x :: x in t ==> x in working by {
        forall x | x in t ensures x in working {
          var i :| 0 <= i < |t| && t[i] == x;
          assert working[i] == x;
        }
      }
      t
  }

  /** The landscape images when there are some, else the quality set unchanged. */
  function Candidates(quality: seq<Image>): (c: seq<Image>)
    ensures forall x :: x in c ==> x in quality
    ensures quality != [] ==> c != []
  {
    var landscape := Filter(quality, Landscape);
    if landscape != [] then landscape else quality
  }

  /** The described candidates when there are some, else all candidates. */
  function FinalCandidates(candidates: seq<Image>): (f: seq<Image>)
    ensures forall x :: x in f ==> x in candidates
    ensures candidates != [] ==> f != []
  {
    var described := Filter(candidates, Described);
    if described != [] then described else candidates
  }

  /**
   * What _select_best_image returns: the first final candidate. Every stage
   * keeps at least one image of a non-empty input, so its last-resort
   * return of images[0] is never reached.
   */
  function BestImage(images: seq<Image>): Option<Image>
  {
    if images == [] then None
    else Some(FinalCandidates(Candidates(QualitySet(WorkingSet(images))))[0])
  }

  /** The selection yields nothing exactly for no images, and otherwise one of the images given. */
  lemma BestImageSpec(images: seq<Image>)
    ensures BestImage(images).None? <==> images == []
    ensures BestImage(images).Some? ==> BestImage(images).value in images
  {
  }

  /**
   * When at least three images are relevant and one of those passes every
   * filter, the image chosen passes every filter too: the chain falls back
   * only when a stage leaves nothing.
   */
  lemma BestImagePassesFilters(images: seq<Image>, x: Image)
    requires x in images && |Filter(images, Relevant)| >= 3
    requires Relevant(x) && HighRes(x) && Landscape(x) && Described(x)
    ensures BestImage(images).Some?
    ensures var best := BestImage(images).value;
      Relevant(best) && HighRes(best) && Landscape(best) && Described(best)
  {
    var working := WorkingSet(images);
    assert working == Filter(images, Relevant);
    var quality := QualitySet(working);
    assert x in Filter(working, HighRes);
    assert quality == Filter(working, HighRes);
    var candidates := Candidates(quality);
    assert x in Filter(quality, Landscape);
    assert candidates == Filter(quality, Landscape);
    var final := FinalCandidates(candidates);
    assert x in Filter(candidates, Described);
    assert final == Filter(candidates, Described);
    assert final[0] in candidates && final[0] in quality && final[0] in working;
  }

  /**
   * The loops of _select_best_image: the relevance filter and the aspect
   * ratio filter append to lists one image at a time, the other stages are
   * comprehensions.
   */
  method SelectBestImage(images: seq<Image>) returns (best: Option<Image>)
    ensures best == BestImage(images)
  {
    if images == [] {
      return None;
    }
    var relevant := RelevantImages(images);
    var working := if |relevant| >= 3 then relevant else images;
    var quality := Filter(working, HighRes);
    if quality == [] {
      quality := Take(working, 8);
    }
    var goodRatio := LandscapeImages(quality);
    var candidates := if goodRatio != [] then goodRatio else quality;
    var described := Filter(candidates, Described);
    var final := if described != [] then described else candidates;
    return Some(final[0]);
  }

  /** The relevance loop: the images whose description names nothing off-topic, in order. */
  method RelevantImages(images: seq<Image>) returns (relevant: seq<Image>)
    ensures relevant == Filter(images, Relevant)
  {
    relevant := [];
    var i := 0;
    while i < |images|
      invariant 0 <= i <= |images|
      invariant relevant == Filter(images[..i], Relevant)
    {
      FilterAppend(images[..i], [images[i]], Relevant);
      assert images[..i + 1] == images[..i] + [images[i]];
      if Relevant(images[i]) {
        relevant := relevant + [images[i]];
      }
      i := i + 1;
    }
    assert images[..|images|] == images;
  }

  /** The aspect-ratio loop: the images with a positive height and a ratio in [1.4, 2.5], in order. */
  method LandscapeImages(quality: seq<Image>) returns (goodRatio: seq<Image>)
    ensures goodRatio == Filter(quality, Landscape)
  {
    goodRatio := [];
    var j := 0;
    while j < |quality|
      invariant 0 <= j <= |quality|
      invariant goodRatio == Filter(quality[..j], Landscape)
    {
      FilterAppend(quality[..j], [quality[j]], Landscape);
      assert quality[..j + 1] == quality[..j] + [quality[j]];
      var width, height := quality[j].width, quality[j].height;
      if height > 0 {
        if 1.4 * height as real <= width as real <= 2.5 * height as real {
          goodRatio := goodRatio + [quality[j]];
        }
      }
      j := j + 1;
    }
    assert quality[..|quality|] == quality;
  }
}
