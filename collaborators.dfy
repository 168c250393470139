/** The services call out to code whose behaviour is not part of this model:
    the language-model API, the agent runtime, the summarization pipeline as
    the tool layer sees it. Each such collaborator is an `Oracle`: it answers
    every question with a fixed but unknown function, and it keeps the list of
    questions asked so far, so that the model can state how many calls an
    operation makes, in which order, and with which arguments. */
module Collaborators {

  class Oracle<Q, A> {
    /** The collaborator's answers; nothing is known about them. */
    const answer: Q -> A
    /** Every question asked so far, oldest first. */
    var log: seq<Q>

    constructor (answer: Q -> A)
      ensures this.answer == answer && log == []
    {
      this.answer := answer;
      log := [];
    }

    /** One call to the collaborator. */
    method Ask(q: Q) returns (a: A)
      modifies this
      ensures a == answer(q)
      ensures log == old(log) + [q]
    {
      a := answer(q);
      log := log + [q];
    }
  }
}
