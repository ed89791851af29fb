/**
 Values shared by every entity of the domain layer: nullable columns, the
 clock's two kinds of reading, references to other entities and the shop
 enumeration.
 */
module Types {

  /** A nullable column or argument: `None` stands for Java's `null`. */
  datatype Option<+T> = None | Some(value: T)

  /** A `LocalDate`, as a day number: day 0 is 1970-01-01, day -1 is 1969-12-31. */
  type Date = int

  /** A `LocalDateTime`, as a reading of the clock on one fixed time line. */
  type DateTime = int

  /** Lazily loaded associations are modelled by the identifier of the entity they refer to. */
  type UserId = int
  type ProductId = int
  type HolidayId = int
  type CategoryId = int
  type ProductDetailId = int

  /** The shop a product or a job belongs to; the code names none of its constants. */
  datatype ShopType = ShopType(name: string)
}
