/**
 * Prompt substitution: a leveling template holds the placeholder `{{INPUT}}`, and the
 * prompt is the template with every occurrence of the placeholder replaced by the
 * user's text (Kotlin's `String.replace`, non-overlapping and left to right).
 */
module PromptTemplates {
  import opened Text

  const INPUT_PLACEHOLDER: string := "{{INPUT}}"

  function BuildFromTemplate(template: string, input: string): string {
    ReplaceAll(template, INPUT_PLACEHOLDER, input)
  }

  /** The template text outside the placeholder occurrences, as substitution sees them. */
  function TemplateText(template: string): string {
    ReplaceAll(template, INPUT_PLACEHOLDER, "")
  }

  /** A template without the placeholder is returned unchanged. */
  lemma NoPlaceholderUnchanged(template: string, input: string)
    requires !Contains(template, INPUT_PLACEHOLDER)
    ensures BuildFromTemplate(template, input) == template
  {
    assert forall j: nat :: OccursAt(template, INPUT_PLACEHOLDER, j) ==> j <= |template|;
    ReplaceFromAbsent(template, INPUT_PLACEHOLDER, input, 0);
    assert template[0..] == template;
  }

  /** A template holding the placeholder yields a prompt holding the input. */
  lemma PromptContainsInput(template: string, input: string)
    requires Contains(template, INPUT_PLACEHOLDER)
    ensures Contains(BuildFromTemplate(template, input), input)
  {
    var j: nat :| j <= |template| && OccursAt(template, INPUT_PLACEHOLDER, j);
    ReplaceFromContains(template, INPUT_PLACEHOLDER, input, 0, j);
  }

  /** Each of the k substituted occurrences changes the length by |input| - 9. */
  lemma PromptLength(template: string, input: string)
    ensures |BuildFromTemplate(template, input)|
            == |template| + CountOccurrences(template, INPUT_PLACEHOLDER) * (|input| - 9)
  {
    ReplaceFromLength(template, INPUT_PLACEHOLDER, input, 0);
  }

  /** Substituting the placeholder for itself gives back the template. */
  lemma SubstituteSelf(template: string)
    ensures BuildFromTemplate(template, INPUT_PLACEHOLDER) == template
  {
    ReplaceFromSelf(template, INPUT_PLACEHOLDER, 0);
    assert template[0..] == template;
  }

  /**
   * With no brace in the input and none in the template outside its placeholders,
   * the prompt holds no placeholder: nothing is left to substitute.
   */
  lemma NoPlaceholderLeft(template: string, input: string)
    requires '{' !in input && '{' !in TemplateText(template)
    ensures !Contains(BuildFromTemplate(template, input), INPUT_PLACEHOLDER)
  {
    var r := BuildFromTemplate(template, input);
    if '{' in r {
      ReplaceFromChars(template, INPUT_PLACEHOLDER, input, 0, '{');
    }
    assert '{' !in r;
    forall j: nat | j <= |r| ensures !OccursAt(r, INPUT_PLACEHOLDER, j) {
      if j + |INPUT_PLACEHOLDER| <= |r| {
        assert r[j..j + |INPUT_PLACEHOLDER|][0] == r[j];
        assert r[j] in r;
      }
    }
  }
}
