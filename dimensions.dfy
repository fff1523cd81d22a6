// The graph bounds the two views derive from their size and their layout
// attributes (lagrange/LaGrangeDimensions.kt, graphend/GraphEndDimensions.kt).
// The attribute values read from XML are taken as given constants.

module Dimensions {

  class LaGrangeDimensions {
    const graphTopFromTop: real
    const graphBottomFromBottom: real
    const graphLeftRightPadding: real
    const numbersYPositionFromBottom: real

    var graphTop: real
    var graphBottom: real
    var graphLeft: real
    var graphRight: real
    var numbersYPosition: real

    constructor (graphTopFromTop: real, graphBottomFromBottom: real, graphLeftRightPadding: real,
                 numbersYPositionFromBottom: real)
      ensures this.graphTopFromTop == graphTopFromTop && this.graphBottomFromBottom == graphBottomFromBottom
      ensures this.graphLeftRightPadding == graphLeftRightPadding
      ensures this.numbersYPositionFromBottom == numbersYPositionFromBottom
      ensures graphTop == 0.0 && graphBottom == 0.0 && graphLeft == 0.0 && graphRight == 0.0
      ensures numbersYPosition == 0.0
    {
      this.graphTopFromTop := graphTopFromTop;
      this.graphBottomFromBottom := graphBottomFromBottom;
      this.graphLeftRightPadding := graphLeftRightPadding;
      this.numbersYPositionFromBottom := numbersYPositionFromBottom;
      graphTop, graphBottom, graphLeft, graphRight, numbersYPosition := 0.0, 0.0, 0.0, 0.0, 0.0;
    }

    /**
     * update: every field is recomputed from the view edges and the
     * attributes alone, so the previous values play no part and a second
     * call with the same edges changes nothing.
     */
    method Update(viewStartX: int, viewEndX: int, viewStartY: int, viewEndY: int)
      modifies this
      ensures graphTop == viewStartY as real + graphTopFromTop
      ensures graphBottom == viewEndY as real - graphBottomFromBottom
      ensures graphLeft == viewStartX as real + graphLeftRightPadding
      ensures graphRight == viewEndX as real - graphLeftRightPadding
      ensures numbersYPosition == viewEndY as real - numbersYPositionFromBottom
      ensures graphRight - graphLeft == (viewEndX - viewStartX) as real - 2.0 * graphLeftRightPadding
    {
      graphTop := viewStartY as real + graphTopFromTop;
      graphBottom := viewEndY as real - graphBottomFromBottom;
      graphLeft := viewStartX as real + graphLeftRightPadding;
      graphRight := viewEndX as real - graphLeftRightPadding;
      numbersYPosition := viewEndY as real - numbersYPositionFromBottom;
    }
  }

  class GraphEndDimensions {
    const graphTopFromTop: real
    const graphBottomFromBottom: real
    const graphLeftRightPadding: real

    var graphTop: real
    var graphBottom: real
    var graphLeft: real
    var graphRight: real

    constructor (graphTopFromTop: real, graphBottomFromBottom: real, graphLeftRightPadding: real)
      ensures this.graphTopFromTop == graphTopFromTop && this.graphBottomFromBottom == graphBottomFromBottom
      ensures this.graphLeftRightPadding == graphLeftRightPadding
      ensures graphTop == 0.0 && graphBottom == 0.0 && graphLeft == 0.0 && graphRight == 0.0
    {
      this.graphTopFromTop := graphTopFromTop;
      this.graphBottomFromBottom := graphBottomFromBottom;
      this.graphLeftRightPadding := graphLeftRightPadding;
      graphTop, graphBottom, graphLeft, graphRight := 0.0, 0.0, 0.0, 0.0;
    }

    /** updateDimensions: as LaGrangeDimensions.Update, without the numbers row. */
    method UpdateDimensions(viewStartX: int, viewEndX: int, viewStartY: int, viewEndY: int)
      modifies this
      ensures graphTop == viewStartY as real + graphTopFromTop
      ensures graphBottom == viewEndY as real - graphBottomFromBottom
      ensures graphLeft == viewStartX as real + graphLeftRightPadding
      ensures graphRight == viewEndX as real - graphLeftRightPadding
      ensures graphRight - graphLeft == (viewEndX - viewStartX) as real - 2.0 * graphLeftRightPadding
    {
      graphTop := viewStartY as real + graphTopFromTop;
      graphBottom := viewEndY as real - graphBottomFromBottom;
      graphLeft := viewStartX as real + graphLeftRightPadding;
      graphRight := viewEndX as real - graphLeftRightPadding;
    }
  }
}
