/** The Bean Validation constraints the backend's payloads use, as
    predicates on possibly-null strings. */
module BeanValidation {
  import opened Common

  /** What String.trim strips: every character up to U+0020, control
      characters included. */
  predicate Trimmable(c: char)
  {
    c <= ' '
  }

  /** @NotBlank, which Hibernate Validator checks as `trim().length() > 0`:
      present, with a character that trim does not strip. */
  predicate NotBlank(s: Option<string>)
  {
    s.Some? && exists i :: 0 <= i < |s.value| && !Trimmable(s.value[i])
  }

  /** @Size(min, max): a null value is accepted; otherwise the length bounds hold. */
  predicate SizeWithin(s: Option<string>, min: int, max: Option<int>)
  {
    s.None? || (min <= |s.value| && (max.None? || |s.value| <= max.value))
  }
}
