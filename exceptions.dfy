/**
 * `StoryDBException` and the database errors the handlers can run into. The
 * exception module itself is not part of this model: each distinct `raise` of
 * the handlers becomes one constructor, and a raising call returns `Failure`.
 */
module StoryErrors {

  datatype Error =
    | DepthLimit           // stat_row: more than 4 path segments
    | IntegrityError       // the database refused a duplicate catalog path
    | EmptyName            // good_name: nothing left after capitalisation
    | NameTooLong          // good_name: longer than max_length
    | NegativeValue        // set_base: value below 0
    | NotANumber           // valid_value: int() refused the input
    | NoStatName           // find_stat: empty name
    | StatNotFound         // find_stat: partial_match found nothing
    | BelowOne             // AttributeHandler.valid_value
    | NotSettable          // AbilityHandler.can_set: Craft, Martial Arts
    | AlreadyPicked        // AbilityHandler.favor: linked ability already flagged
    | NoMainCategory       // get_main_category found nothing
    | NoCategories         // get_sub_category: no allow-list for the main category
    | NoSubCategory        // get_sub_category: empty sub-category
    | SubCategoryNotFound  // get_sub_category: partial_match found nothing
    | CheckConstraint      // a negative value saved into a PositiveIntegerField
    | NoTemplateName       // set_sub / TemplateHandler.set: empty entry
    | SubTypeNotFound      // set_sub: no sub-type matched
    | TemplateNotFound     // TemplateHandler.set: no template matched

  datatype Result<+T> = Success(value: T) | Failure(error: Error) {
    predicate IsFailure() {
      Failure?
    }

    function PropagateFailure<U>(): Result<U>
      requires Failure?
    {
      Failure(error)
    }

    function Extract(): T
      requires Success?
    {
      value
    }
  }
}
