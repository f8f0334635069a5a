/**
 * The three mock predictors of main.py. Each lowers the file name, tests keyword
 * groups in a fixed order and returns one of a few constant ranked lists of three
 * (label, confidence) pairs. Confidences are kept in hundredths (0.92 is 92): the
 * source only ever returns these literals and never computes with them.
 */
module Predictors {
  import opened Text

  /** One ranked guess: a label and its confidence in hundredths. */
  datatype Prediction = Prediction(category: string, confidence: nat)

  /**
   * What every predictor promises of its output: exactly three predictions, each
   * confidence within [0, 1], strictly descending by confidence.
   */
  predicate Ranked(p: seq<Prediction>) {
    && |p| == 3
    && (forall i :: 0 <= i < |p| ==> p[i].confidence <= 100)
    && (forall i, j :: 0 <= i < j < |p| ==> p[i].confidence > p[j].confidence)
  }

  /** Sum of the confidences, in hundredths. */
  function TotalConfidence(p: seq<Prediction>): nat {
    if p == [] then 0 else p[0].confidence + TotalConfidence(p[1..])
  }

  // ---------- _mock_classifier_labels ----------

  const COW_KEYS: seq<string> := ["cow", "cattle", "bovine"]
  const DOG_KEYS: seq<string> := ["dog", "canine"]
  const CAT_KEYS: seq<string> := ["cat", "feline"]

  const COW_RESULT: seq<Prediction> :=
    [Prediction("Cow", 92), Prediction("Buffalo", 5), Prediction("Yak", 3)]
  const DOG_RESULT: seq<Prediction> :=
    [Prediction("Dog", 90), Prediction("Wolf", 6), Prediction("Fox", 4)]
  const CAT_RESULT: seq<Prediction> :=
    [Prediction("Cat", 91), Prediction("Lynx", 5), Prediction("Puma", 4)]
  const UNKNOWN_ANIMAL_RESULT: seq<Prediction> :=
    [Prediction("Unknown Animal", 60), Prediction("Dog", 22), Prediction("Cat", 18)]

  /** `_mock_classifier_labels`: cow keywords first, then dog, then cat, else the default. */
  function ClassifierLabels(filename: string): (r: seq<Prediction>)
    ensures Ranked(r)
  {
    var name := Lower(filename);
    if AnyKeyword(name, COW_KEYS) then COW_RESULT
    else if AnyKeyword(name, DOG_KEYS) then DOG_RESULT
    else if AnyKeyword(name, CAT_KEYS) then CAT_RESULT
    else UNKNOWN_ANIMAL_RESULT
  }

  /**
   * Keyword precedence of the classifier, stated with the reference meaning of
   * substring occurrence: the top label is decided by the FIRST keyword group that
   * occurs in the lowered name, whatever later groups also occur.
   */
  lemma ClassifierPrecedence(filename: string)
    ensures var name, r := Lower(filename), ClassifierLabels(filename);
      && (r[0].category == "Cow" <==> MentionsAny(name, COW_KEYS))
      && (r[0].category == "Dog" <==> !MentionsAny(name, COW_KEYS) && MentionsAny(name, DOG_KEYS))
      && (r[0].category == "Cat" <==>
            !MentionsAny(name, COW_KEYS) && !MentionsAny(name, DOG_KEYS) && MentionsAny(name, CAT_KEYS))
      && (r[0].category == "Unknown Animal" <==>
            !MentionsAny(name, COW_KEYS) && !MentionsAny(name, DOG_KEYS) && !MentionsAny(name, CAT_KEYS))
  {
  }

  /** A name containing "cow", in any case, is classified Cow at 0.92. */
  lemma CowNameIsCow(filename: string)
    requires Occurs("cow", Lower(filename))
    ensures ClassifierLabels(filename)[0] == Prediction("Cow", 92)
  {
  }

  /** A name with both "dog" and "cat" (and no cow keyword) is a Dog: dog keywords are tested first. */
  lemma DogBeatsCat(filename: string)
    requires Occurs("dog", Lower(filename)) && Occurs("cat", Lower(filename))
    requires !MentionsAny(Lower(filename), COW_KEYS)
    ensures ClassifierLabels(filename)[0] == Prediction("Dog", 90)
  {
  }

  /** "cattle" contains "cat" but is classified Cow, because cow keywords are tested first. */
  lemma CattleIsCow()
    ensures Occurs("cat", "cattle")
    ensures ClassifierLabels("cattle")[0] == Prediction("Cow", 92)
  {
    assert OccursAt("cat", "cattle", 0);
    LowerKeepsLower("cattle");
    assert Occurs(COW_KEYS[1], "cattle") by {
      assert OccursAt("cattle", "cattle", 0);
    }
  }

  /** A name with no keyword of any group gets the default, Unknown Animal at 0.60. */
  lemma NoKeywordIsUnknownAnimal(filename: string)
    requires !MentionsAny(Lower(filename), COW_KEYS + DOG_KEYS + CAT_KEYS)
    ensures ClassifierLabels(filename) == UNKNOWN_ANIMAL_RESULT
    ensures ClassifierLabels(filename)[0] == Prediction("Unknown Animal", 60)
  {
    var name := Lower(filename);
    var all := COW_KEYS + DOG_KEYS + CAT_KEYS;
    forall j | 0 <= j < |DOG_KEYS| ensures !Occurs(DOG_KEYS[j], name) {
      assert all[|COW_KEYS| + j] == DOG_KEYS[j];
    }
    forall j | 0 <= j < |CAT_KEYS| ensures !Occurs(CAT_KEYS[j], name) {
      assert all[|COW_KEYS| + |DOG_KEYS| + j] == CAT_KEYS[j];
    }
    forall j | 0 <= j < |COW_KEYS| ensures !Occurs(COW_KEYS[j], name) {
      assert all[j] == COW_KEYS[j];
    }
  }

  // ---------- _mock_snake_assessment ----------

  const VENOM_KEYS: seq<string> := ["cobra", "viper", "krait"]

  /** `_mock_snake_assessment`: only the top entry depends on the name. */
  function SnakeAssessment(filename: string): (r: seq<Prediction>)
    ensures Ranked(r)
  {
    var name := Lower(filename);
    var venom := AnyKeyword(name, VENOM_KEYS);
    var category := if venom then "Venomous Snake" else "Non-venomous Snake";
    [Prediction(category, if venom then 88 else 82), Prediction("Rat Snake", 8), Prediction("Other", 4)]
  }

  /**
   * The snake top prediction is Venomous Snake at 0.88 exactly when the lowered name
   * mentions cobra, viper or krait, and Non-venomous Snake at 0.82 otherwise; the
   * second and third entries never change.
   */
  lemma SnakeVenomRule(filename: string)
    ensures var r := SnakeAssessment(filename);
      && (r[0] == Prediction("Venomous Snake", 88) <==> MentionsAny(Lower(filename), VENOM_KEYS))
      && (!MentionsAny(Lower(filename), VENOM_KEYS) ==> r[0] == Prediction("Non-venomous Snake", 82))
      && r[1] == Prediction("Rat Snake", 8)
      && r[2] == Prediction("Other", 4)
  {
  }

  // ---------- _mock_emotion ----------

  const HAPPY_KEYS: seq<string> := ["happy", "smile"]
  const AGITATED_KEYS: seq<string> := ["angry", "growl", "hiss"]

  const HAPPY_RESULT: seq<Prediction> :=
    [Prediction("Happy", 93), Prediction("Relaxed", 5), Prediction("Alert", 2)]
  const AGITATED_RESULT: seq<Prediction> :=
    [Prediction("Agitated", 88), Prediction("Alert", 8), Prediction("Neutral", 4)]
  const NEUTRAL_RESULT: seq<Prediction> :=
    [Prediction("Neutral", 70), Prediction("Curious", 20), Prediction("Relaxed", 10)]

  /** `_mock_emotion`: happy keywords first, then agitated ones, else Neutral. */
  function EmotionLabels(filename: string): (r: seq<Prediction>)
    ensures Ranked(r)
  {
    var name := Lower(filename);
    if AnyKeyword(name, HAPPY_KEYS) then HAPPY_RESULT
    else if AnyKeyword(name, AGITATED_KEYS) then AGITATED_RESULT
    else NEUTRAL_RESULT
  }

  /** Keyword precedence of the emotion predictor: happy/smile, then angry/growl/hiss, else Neutral. */
  lemma EmotionPrecedence(filename: string)
    ensures var name, r := Lower(filename), EmotionLabels(filename);
      && (r[0].category == "Happy" <==> MentionsAny(name, HAPPY_KEYS))
      && (r[0].category == "Agitated" <==> !MentionsAny(name, HAPPY_KEYS) && MentionsAny(name, AGITATED_KEYS))
      && (r[0] == Prediction("Neutral", 70) <==>
            !MentionsAny(name, HAPPY_KEYS) && !MentionsAny(name, AGITATED_KEYS))
  {
  }

  /** A name with no emotion keyword gets the default, Neutral at 0.70. */
  lemma NoKeywordIsNeutral(filename: string)
    requires !MentionsAny(Lower(filename), HAPPY_KEYS + AGITATED_KEYS)
    ensures EmotionLabels(filename) == NEUTRAL_RESULT
  {
    var all := HAPPY_KEYS + AGITATED_KEYS;
    forall j | 0 <= j < |HAPPY_KEYS| ensures !Occurs(HAPPY_KEYS[j], Lower(filename)) {
      assert all[j] == HAPPY_KEYS[j];
    }
    forall j | 0 <= j < |AGITATED_KEYS| ensures !Occurs(AGITATED_KEYS[j], Lower(filename)) {
      assert all[|HAPPY_KEYS| + j] == AGITATED_KEYS[j];
    }
  }

  /** None of the emotion keywords occurs in "random.jpg". */
  lemma RandomHasNoEmotionKeyword()
    ensures !MentionsAny("random.jpg", HAPPY_KEYS + AGITATED_KEYS)
  {
    var name := "random.jpg";
    MissingCharExcludes("happy", name, 'h');
    MissingCharExcludes("smile", name, 's');
    MissingCharExcludes("angry", name, 'y');
    MissingCharExcludes("growl", name, 'w');
    MissingCharExcludes("hiss", name, 'h');
  }

  /** "random.jpg" mentions no emotion keyword, so its top prediction is Neutral at 0.70. */
  lemma RandomIsNeutral()
    ensures EmotionLabels("random.jpg")[0] == Prediction("Neutral", 70)
  {
    LowerKeepsLower("random.jpg");
    RandomHasNoEmotionKeyword();
    NoKeywordIsNeutral("random.jpg");
  }

  // ---------- properties shared by the three predictors ----------

  /**
   * Matching is case-insensitive: every predictor gives the same answer for a name
   * and for its lowered form.
   */
  lemma CaseInsensitive(filename: string)
    ensures ClassifierLabels(Lower(filename)) == ClassifierLabels(filename)
    ensures SnakeAssessment(Lower(filename)) == SnakeAssessment(filename)
    ensures EmotionLabels(Lower(filename)) == EmotionLabels(filename)
  {
    LowerIdempotent(filename);
  }

  /** The total of a three-entry list is the sum of its three confidences. */
  lemma TotalOfThree(p: seq<Prediction>)
    requires |p| == 3
    ensures TotalConfidence(p) == p[0].confidence + p[1].confidence + p[2].confidence
  {
    assert TotalConfidence(p[2..]) == p[2].confidence by {
      assert p[2..][1..] == [];
    }
    assert p[1..][1..] == p[2..];
  }

  /**
   * Confidences sum to at most 1.0: exactly 1.0 for every list except the
   * non-venomous snake one, which sums to 0.94.
   */
  lemma ConfidenceTotals(filename: string)
    ensures TotalConfidence(ClassifierLabels(filename)) == 100
    ensures TotalConfidence(EmotionLabels(filename)) == 100
    ensures TotalConfidence(SnakeAssessment(filename)) ==
      if MentionsAny(Lower(filename), VENOM_KEYS) then 100 else 94
  {
    TotalOfThree(ClassifierLabels(filename));
    TotalOfThree(EmotionLabels(filename));
    TotalOfThree(SnakeAssessment(filename));
  }
}
