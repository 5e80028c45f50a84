/**
 * The two enumerations of the image-generation client: the models and the image sizes.
 * The client call itself is outside this model; only the values the settings menu offers
 * and the settings store records are kept. The DALL-E 3 portrait and landscape sizes are
 * spelled with the multiplication sign U+00D7, the others with a latin `x`.
 */
module Gpt {
  import Text

  datatype Model = DallE2 | DallE3 {
    /** The enum member's `.value`. */
    function Value(): (v: string)
      ensures v != [] && Text.NoSpace(v)
    {
      match this
      case DallE2 => "dall-e-2"
      case DallE3 => "dall-e-3"
    }
  }

  datatype Size = S256 | S512 | S1024 | S1024x1792 | S1792x1024 {
    /** The enum member's `.value`. */
    function Value(): (v: string)
      ensures v != [] && Text.NoSpace(v)
    {
      match this
      case S256 => "256x256"
      case S512 => "512x512"
      case S1024 => "1024x1024"
      case S1024x1792 => "1024\U{D7}1792"
      case S1792x1024 => "1792\U{D7}1024"
    }
  }

  /** Distinct members have distinct values, so a stored value names one member. */
  lemma ValuesInjective()
    ensures forall m1: Model, m2: Model :: m1.Value() == m2.Value() ==> m1 == m2
    ensures forall s1: Size, s2: Size :: s1.Value() == s2.Value() ==> s1 == s2
  {
    assert "dall-e-2"[7] != "dall-e-3"[7];
    forall s1: Size, s2: Size | s1.Value() == s2.Value() ensures s1 == s2 {
      assert s1.Value()[0] == s2.Value()[0] && s1.Value()[4] == s2.Value()[4];
    }
  }
}
