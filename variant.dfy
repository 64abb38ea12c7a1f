/** Which of two readings of a routine the model follows: the code as the
    source writes it, or the evidently intended correction of a defect in
    it. Each use names the lines it switches. */
module Variant {
  datatype Rule = AsWritten | Corrected
}
