/** The decisions the `'message'` handler takes before any effect: which
    messages are dropped, which handler a message is routed to, and the
    prompt the image handler extracts. */
module Classifier {
  import opened Text

  /** The parts of an incoming WhatsApp message the bot reads: `msg.from`,
      `msg.id.remote`, `msg.id.id` and `msg.body`. */
  datatype Message = Message(from: string, remote: string, id: string, body: string)

  const StatusBroadcast: string := "status@broadcast"
  const GroupSuffix: string := "@g.us"
  const ImagePrefix: string := "image "

  /** Status updates and group chats are ignored; every other message is
      handled, including the bot's own. */
  predicate IsIgnored(msg: Message) {
    msg.from == StatusBroadcast || EndsWith(msg.remote, GroupSuffix)
  }

  datatype Route = ImageRoute | TextRoute

  /** Routing is decided on the lower-cased body. */
  function Classify(body: string): Route {
    if StartsWith(ToLower(body), ImagePrefix) then ImageRoute else TextRoute
  }

  /** The image prompt: the original-case body without its first six
      characters, trimmed. */
  function ImagePrompt(body: string): string {
    Trim(SubstringFrom(body, |ImagePrefix|))
  }

  /** The image route is taken exactly when the first six characters of the
      original body fold to `"image "`: the prefix test is case-insensitive
      over ASCII letters and nothing else. */
  lemma ClassifyIsCaseInsensitivePrefix(body: string)
    ensures Classify(body) == ImageRoute <==>
      |body| >= 6 && forall k :: 0 <= k < 6 ==> LowerChar(body[k]) == ImagePrefix[k]
  {
    if |body| >= 6 && forall k :: 0 <= k < 6 ==> LowerChar(body[k]) == ImagePrefix[k] {
      assert ToLower(body)[..6] == ImagePrefix;
    }
    if Classify(body) == ImageRoute {
      forall k | 0 <= k < 6 ensures LowerChar(body[k]) == ImagePrefix[k] {
        assert ToLower(body)[..6][k] == ToLower(body)[k];
      }
    }
  }

  /** On the image route the prompt is the trimmed rest of the body after the
      six prefix characters, and it is empty exactly when that rest is all
      white space. */
  lemma ImagePromptOfImageRoute(body: string)
    requires Classify(body) == ImageRoute
    ensures |body| >= 6
    ensures ImagePrompt(body) == Trim(body[6..])
    ensures ImagePrompt(body) == [] <==> forall k :: 6 <= k < |body| ==> IsSpace(body[k])
  {
    TrimEmptyIff(body[6..]);
    if forall k :: 6 <= k < |body| ==> IsSpace(body[k]) {
      assert AllSpace(body[6..]) by {
        forall k | 0 <= k < |body| - 6 ensures IsSpace(body[6..][k]) {
          assert body[6..][k] == body[k + 6];
        }
      }
    }
    if AllSpace(body[6..]) {
      forall k | 6 <= k < |body| ensures IsSpace(body[k]) {
        assert body[k] == body[6..][k - 6];
      }
    }
  }

  /** A non-empty prompt neither starts nor ends with white space. */
  lemma ImagePromptHasNoOuterSpace(body: string)
    ensures ImagePrompt(body) != [] ==>
      !IsSpace(ImagePrompt(body)[0]) && !IsSpace(ImagePrompt(body)[|ImagePrompt(body)| - 1])
  {
    var i, j := TrimIsSlice(SubstringFrom(body, |ImagePrefix|));
  }

  /** On the image route the prompt is a slice of the original body after the
      prefix, so it keeps the body's case and characters. */
  lemma ImagePromptIsSliceOfBody(body: string) returns (i: nat, j: nat)
    requires Classify(body) == ImageRoute
    ensures 6 <= i <= j <= |body| && ImagePrompt(body) == body[i..j]
  {
    ImagePromptOfImageRoute(body);
    var a, b := TrimIsSlice(body[6..]);
    SliceOfSuffix(body, 6, a, b);
    i, j := a + 6, b + 6;
  }

  lemma SliceOfSuffix(s: string, a: nat, i: nat, j: nat)
    requires a <= |s| && i <= j <= |s| - a
    ensures s[a..][i..j] == s[a + i..a + j]
  {
  }

  /** An upper-case prefix still routes to the image handler, and the
      prompt keeps the case of the rest of the body. */
  lemma UpperCasePrefixExample()
    ensures Classify("IMAGE  Um Gato ") == ImageRoute
    ensures ImagePrompt("IMAGE  Um Gato ") == "Um Gato"
  {
    var b := "IMAGE  Um Gato ";
    assert ToLower(b)[..6] == ImagePrefix by {
      assert LowerChar('I') == 'i' && LowerChar('M') == 'm' && LowerChar('A') == 'a';
      assert LowerChar('G') == 'g' && LowerChar('E') == 'e' && LowerChar(' ') == ' ';
    }
    var r := "Um Gato";
    assert b[6..] == " " + r + " ";
    assert !IsSpace(r[0]) && !IsSpace(r[|r| - 1]);
    TrimOfPadded(" ", r, " ");
  }

  /** The prefix needs its space: `"imagem ..."` and a bare `"image"` go to
      the text handler, and `"image "` alone goes to the image handler with an
      empty prompt. */
  lemma PrefixNeedsSpaceExample()
    ensures Classify("imagem de um gato") == TextRoute
    ensures Classify("image") == TextRoute
    ensures Classify("image ") == ImageRoute && ImagePrompt("image ") == ""
  {
    assert ToLower("imagem de um gato")[5] == 'm';
    assert ToLower("image ")[..6] == ImagePrefix;
  }
}
