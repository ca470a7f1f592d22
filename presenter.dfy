/**
 * Item presentation: what each character card derives from its record at
 * render time, namely the avatar's image reference, the one-shot fallback
 * when that image fails to load, and the badge colour of its status.
 */
module Presenter {
  import opened Characters
  import opened JsStrings

  /** The local placeholder shown when a character has no usable image. */
  const FALLBACK_IMAGE: string := "/futurama-logo.png"

  /**
   * The avatar's initial `src`: the character's own image when it has a
   * non-whitespace character, the placeholder otherwise. Never empty.
   */
  function AvatarSource(c: Character): (src: string)
    ensures src != []
    ensures !Blank(c.image) ==> src == c.image
    ensures Blank(c.image) ==> src == FALLBACK_IMAGE
  {
    if c.image != "" && Trim(c.image) != "" then c.image else FALLBACK_IMAGE
  }

  /**
   * The `src` after one `error` event on the avatar: replaced by the
   * placeholder unless it already refers to it.
   */
  function AfterImageError(src: string): (r: string)
    ensures Includes(r, FALLBACK_IMAGE)
    ensures Includes(src, FALLBACK_IMAGE) ==> r == src
    ensures !Includes(src, FALLBACK_IMAGE) ==> r == FALLBACK_IMAGE
  {
    IncludesSelf(FALLBACK_IMAGE);
    if !Includes(src, FALLBACK_IMAGE) then FALLBACK_IMAGE else src
  }

  /** An empty or whitespace-only image falls back; a real URL is kept as is. */
  lemma AvatarSourceExamples(c: Character)
    ensures AvatarSource(c.(image := "")) == FALLBACK_IMAGE
    ensures AvatarSource(c.(image := " \t\n")) == FALLBACK_IMAGE
    ensures AvatarSource(c.(image := "https://x/y.png")) == "https://x/y.png"
  {
    assert !IsWhitespace("https://x/y.png"[0]);
  }

  /** A second failure changes nothing: the guard cannot loop. */
  lemma AfterImageErrorIdempotent(src: string)
    ensures AfterImageError(AfterImageError(src)) == AfterImageError(src)
  {
  }

  /** When the avatar already shows the placeholder, its failure leaves it alone. */
  lemma FallbackNotReplaced(c: Character)
    requires Blank(c.image)
    ensures AfterImageError(AvatarSource(c)) == AvatarSource(c) == FALLBACK_IMAGE
  {
    IncludesSelf(FALLBACK_IMAGE);
  }

  /** The `src` after `n` consecutive `error` events. */
  function AfterImageErrors(src: string, n: nat): string {
    if n == 0 then src else AfterImageError(AfterImageErrors(src, n - 1))
  }

  /** However many times the image fails, the outcome is that of the first failure. */
  lemma {:induction false} AtMostOneSubstitution(src: string, n: nat)
    requires n >= 1
    ensures AfterImageErrors(src, n) == AfterImageError(src)
  {
    if n > 1 {
      AtMostOneSubstitution(src, n - 1);
      AfterImageErrorIdempotent(src);
    }
  }

  /**
   * The avatar `<img>` element: its `src` is set from the record and then
   * changed in place by the `onError` handler. The ghost counter records
   * how many times the handler substituted the placeholder.
   */
  class AvatarImage {
    var src: string
    ghost var substitutions: nat

    /** At most one substitution, and after it the element shows the placeholder. */
    ghost predicate Valid()
      reads this
    {
      substitutions <= 1 && (substitutions == 1 ==> src == FALLBACK_IMAGE)
    }

    constructor (c: Character)
      ensures Valid()
      ensures src == AvatarSource(c) && substitutions == 0
    {
      src := AvatarSource(c);
      substitutions := 0;
    }

    /** The `onError` handler. */
    method OnError()
      requires Valid()
      modifies this
      ensures Valid()
      ensures src == AfterImageError(old(src))
      ensures substitutions == old(substitutions) + (if src == old(src) then 0 else 1)
    {
      IncludesSelf(FALLBACK_IMAGE);
      if !Includes(src, FALLBACK_IMAGE) {
        src := FALLBACK_IMAGE;
        substitutions := substitutions + 1;
      }
    }
  }

  /** The Ionic colour names the status badge can take. */
  datatype BadgeColor = Success | Danger | Medium

  /** The colour of a status badge; exact, case-sensitive comparison. */
  function StatusColor(status: string): (color: BadgeColor)
    ensures color == Success <==> status == "ALIVE"
    ensures color == Danger <==> status == "DEAD"
    ensures color == Medium <==> status != "ALIVE" && status != "DEAD"
  {
    if status == "ALIVE" then Success
    else if status == "DEAD" then Danger
    else Medium
  }

  /** Unknown, empty and differently cased statuses are neutral, not errors. */
  lemma UnrecognisedStatusIsNeutral()
    ensures StatusColor("UNKNOWN") == Medium
    ensures StatusColor("") == Medium
    ensures StatusColor("Alive") == Medium && StatusColor("dead") == Medium
  {
  }
}
