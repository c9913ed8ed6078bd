/** The optional value the controllers use for "no such row" (Sequelize returns null). */
module Wrappers {
  datatype Option<+T> = None | Some(value: T)
}
