// Going through the rows of a table one at a time, in no particular order.
module RowSets {
  method AnyOf<T(==)>(rest: set<T>) returns (row: T)
    requires rest != {}
    ensures row in rest
  {
    row :| row in rest;
  }
}
