/**
 * The JSON exchanged between the capture clients and the inference endpoint:
 * one detection per box, and the two shapes of response body.
 */
module Protocol {

  /** One entry of `predictions`: `{'class': ..., 'confidence': ..., 'bbox': [x1, y1, x2, y2]}`. */
  datatype Prediction = Prediction(cls: string, confidence: real, bbox: seq<real>)

  /**
   * A response body: `{'success': True, 'predictions': [...], 'image_url': ...}`
   * (the `success` key is always `True` in this shape) or `{'error': message}`.
   */
  datatype Body =
    | SuccessBody(predictions: seq<Prediction>, imageUrl: string)
    | ErrorBody(error: string)

  /** An HTTP status code together with its JSON body. */
  datatype Response = Response(status: int, body: Body)
}
