/** The tables of the Scout scanner, entry by entry
    (build-backend/ScoutPatternScanner.cc). */
module ScoutScannerTables {
  const JAM: nat := 147        // no transition is possible any more
  const EOB_STATE: nat := 9   // entered on an end-of-buffer character
  const END_OF_BUFFER: nat := 41 // YY_END_OF_BUFFER
  const CLASSES: nat := 28
  const ROWS: nat := 156
  const ENTRIES: nat := 214

  // yy_accept: the rule matched in a state, 0 if none.
  function Accept(s: int): nat
    requires 0 <= s < 148
  {
    if s < 12 then
      match s case 0 => 0 case 1 => 0 case 2 => 0 case 3 => 4 case 4 => 4 case 5 => 0 case 6 => 0 case 7 => 0
        case 8 => 0 case 9 => 41 case 10 => 39 case _ => 2
    else if s < 24 then
      match s case 12 => 1 case 13 => 9 case 14 => 8 case 15 => 39 case 16 => 39 case 17 => 39 case 18 => 39
        case 19 => 39 case 20 => 39 case 21 => 39 case 22 => 39 case _ => 39
    else if s < 36 then
      match s case 24 => 39 case 25 => 13 case 26 => 4 case 27 => 6 case 28 => 5 case 29 => 10 case 30 => 11
        case 31 => 12 case 32 => 14 case 33 => 15 case 34 => 16 case _ => 17
    else if s < 48 then
      match s case 36 => 2 case 37 => 8 case 38 => 3 case 39 => 0 case 40 => 0 case 41 => 0 case 42 => 0 case 43 => 0
        case 44 => 0 case 45 => 0 case 46 => 0 case _ => 0
    else if s < 60 then
      match s case 48 => 0 case 49 => 0 case 50 => 0 case 51 => 0 case 52 => 0 case 53 => 0 case 54 => 0 case 55 => 0
        case 56 => 4 case 57 => 5 case 58 => 5 case _ => 7
    else if s < 72 then
      match s case 60 => 10 case 61 => 14 case 62 => 0 case 63 => 0 case 64 => 0 case 65 => 0 case 66 => 0
        case 67 => 0 case 68 => 0 case 69 => 0 case 70 => 0 case _ => 0
    else if s < 84 then
      match s case 72 => 0 case 73 => 0 case 74 => 0 case 75 => 0 case 76 => 0 case 77 => 0 case 78 => 0 case 79 => 0
        case 80 => 0 case 81 => 0 case 82 => 0 case _ => 0
    else if s < 96 then
      match s case 84 => 0 case 85 => 0 case 86 => 0 case 87 => 22 case 88 => 0 case 89 => 0 case 90 => 0 case 91 => 0
        case 92 => 0 case 93 => 28 case 94 => 29 case _ => 30
    else if s < 108 then
      match s case 96 => 31 case 97 => 0 case 98 => 0 case 99 => 0 case 100 => 0 case 101 => 0 case 102 => 37
        case 103 => 38 case 104 => 0 case 105 => 19 case 106 => 0 case _ => 0
    else if s < 120 then
      match s case 108 => 23 case 109 => 0 case 110 => 0 case 111 => 0 case 112 => 0 case 113 => 0 case 114 => 0
        case 115 => 0 case 116 => 0 case 117 => 0 case 118 => 0 case _ => 0
    else if s < 132 then
      match s case 120 => 0 case 121 => 0 case 122 => 0 case 123 => 26 case 124 => 0 case 125 => 32 case 126 => 33
        case 127 => 0 case 128 => 35 case 129 => 0 case 130 => 0 case _ => 20
    else if s < 144 then
      match s case 132 => 0 case 133 => 0 case 134 => 25 case 135 => 27 case 136 => 34 case 137 => 0 case 138 => 0
        case 139 => 0 case 140 => 0 case 141 => 0 case 142 => 18 case _ => 21
    else
      match s case 144 => 24 case 145 => 0 case 146 => 36 case _ => 0
  }

  // yy_ec: the equivalence class of a byte.
  function Ec(b: int): nat
    requires 0 <= b < 256
  {
    match b
    case 0 => 0 case 9 => 2 case 11 => 2 case 12 => 2 case 13 => 2 case 32 => 2 case 10 => 3 case 34 => 4 case 35 => 5
    case 65 => 6 case 66 => 7 case 67 => 8 case 68 => 9 case 69 => 10 case 70 => 11 case 71 => 12 case 72 => 13
    case 73 => 14 case 75 => 15 case 76 => 16 case 77 => 17 case 78 => 18 case 79 => 19 case 80 => 20 case 82 => 21
    case 83 => 22 case 84 => 23 case 85 => 24 case 89 => 25 case 123 => 26 case 125 => 27
    case _ => 1
  }

  // yy_meta: the class of a class, for the template rows.
  function Meta(c: int): nat
    requires 0 <= c < 28
  {
    if c < 14 then
      match c case 0 => 0 case 1 => 1 case 2 => 1 case 3 => 2 case 4 => 3 case 5 => 4 case 6 => 1 case 7 => 1
        case 8 => 1 case 9 => 1 case 10 => 1 case 11 => 1 case 12 => 1 case _ => 1
    else
      match c case 14 => 1 case 15 => 1 case 16 => 1 case 17 => 1 case 18 => 1 case 19 => 1 case 20 => 1 case 21 => 1
        case 22 => 1 case 23 => 1 case 24 => 1 case 25 => 1 case 26 => 5 case _ => 5
  }

  // yy_base: where the row of a state starts in Nxt and Chk.
  function Base(s: int): nat
    requires 0 <= s < 156
  {
    if s < 12 then
      match s case 0 => 0 case 1 => 0 case 2 => 0 case 3 => 25 case 4 => 26 case 5 => 29 case 6 => 31 case 7 => 33
        case 8 => 35 case 9 => 185 case 10 => 186 case _ => 182
    else if s < 24 then
      match s case 12 => 186 case 13 => 186 case 14 => 157 case 15 => 31 case 16 => 34 case 17 => 168 case 18 => 163
        case 19 => 161 case 20 => 33 case 21 => 35 case 22 => 156 case _ => 153
    else if s < 36 then
      match s case 24 => 159 case 25 => 186 case 26 => 0 case 27 => 186 case 28 => 37 case 29 => 0 case 30 => 186
        case 31 => 186 case 32 => 0 case 33 => 186 case 34 => 186 case _ => 186
    else if s < 48 then
      match s case 36 => 174 case 37 => 0 case 38 => 0 case 39 => 159 case 40 => 39 case 41 => 156 case 42 => 150
        case 43 => 150 case 44 => 165 case 45 => 162 case 46 => 160 case _ => 43
    else if s < 60 then
      match s case 48 => 159 case 49 => 150 case 50 => 157 case 51 => 42 case 52 => 146 case 53 => 158 case 54 => 143
        case 55 => 148 case 56 => 0 case 57 => 41 case 58 => 50 case _ => 186
    else if s < 72 then
      match s case 60 => 0 case 61 => 0 case 62 => 145 case 63 => 138 case 64 => 153 case 65 => 149 case 66 => 151
        case 67 => 148 case 68 => 143 case 69 => 136 case 70 => 144 case _ => 136
    else if s < 84 then
      match s case 72 => 132 case 73 => 127 case 74 => 139 case 75 => 138 case 76 => 128 case 77 => 136 case 78 => 122
        case 79 => 128 case 80 => 120 case 81 => 132 case 82 => 118 case _ => 133
    else if s < 96 then
      match s case 84 => 117 case 85 => 120 case 86 => 123 case 87 => 186 case 88 => 115 case 89 => 117 case 90 => 128
        case 91 => 123 case 92 => 108 case 93 => 186 case 94 => 186 case _ => 186
    else if s < 108 then
      match s case 96 => 186 case 97 => 123 case 98 => 112 case 99 => 119 case 100 => 109 case 101 => 113
        case 102 => 186 case 103 => 186 case 104 => 120 case 105 => 186 case 106 => 101 case _ => 101
    else if s < 120 then
      match s case 108 => 186 case 109 => 104 case 110 => 105 case 111 => 103 case 112 => 111 case 113 => 97
        case 114 => 95 case 115 => 96 case 116 => 102 case 117 => 102 case 118 => 101 case _ => 84
    else if s < 132 then
      match s case 120 => 87 case 121 => 77 case 122 => 84 case 123 => 186 case 124 => 66 case 125 => 186
        case 126 => 186 case 127 => 57 case 128 => 186 case 129 => 60 case 130 => 58 case _ => 186
    else if s < 144 then
      match s case 132 => 53 case 133 => 57 case 134 => 186 case 135 => 186 case 136 => 186 case 137 => 52
        case 138 => 47 case 139 => 49 case 140 => 44 case 141 => 44 case 142 => 186 case _ => 186
    else
      match s case 144 => 186 case 145 => 20 case 146 => 186 case 147 => 186 case 148 => 77 case 149 => 82
        case 150 => 87 case 151 => 92 case 152 => 97 case 153 => 102 case 154 => 107 case _ => 112
  }

  // yy_def: the row to fall back to.
  function Def(s: int): nat
    requires 0 <= s < 156
  {
    if s < 12 then
      match s case 0 => 0 case 1 => 147 case 2 => 1 case 3 => 148 case 4 => 148 case 5 => 149 case 6 => 149
        case 7 => 150 case 8 => 150 case 9 => 147 case 10 => 147 case _ => 147
    else if s < 24 then
      match s case 12 => 147 case 13 => 147 case 14 => 151 case 15 => 147 case 16 => 147 case 17 => 147 case 18 => 147
        case 19 => 147 case 20 => 147 case 21 => 147 case 22 => 147 case _ => 147
    else if s < 36 then
      match s case 24 => 147 case 25 => 147 case 26 => 152 case 27 => 147 case 28 => 153 case 29 => 154 case 30 => 147
        case 31 => 147 case 32 => 155 case 33 => 147 case 34 => 147 case _ => 147
    else if s < 48 then
      match s case 36 => 147 case 37 => 151 case 38 => 151 case 39 => 147 case 40 => 147 case 41 => 147 case 42 => 147
        case 43 => 147 case 44 => 147 case 45 => 147 case 46 => 147 case _ => 147
    else if s < 60 then
      match s case 48 => 147 case 49 => 147 case 50 => 147 case 51 => 147 case 52 => 147 case 53 => 147 case 54 => 147
        case 55 => 147 case 56 => 152 case 57 => 153 case 58 => 153 case _ => 147
    else if s < 72 then
      match s case 60 => 154 case 61 => 155 case 62 => 147 case 63 => 147 case 64 => 147 case 65 => 147 case 66 => 147
        case 67 => 147 case 68 => 147 case 69 => 147 case 70 => 147 case _ => 147
    else if s < 84 then
      match s case 72 => 147 case 73 => 147 case 74 => 147 case 75 => 147 case 76 => 147 case 77 => 147 case 78 => 147
        case 79 => 147 case 80 => 147 case 81 => 147 case 82 => 147 case _ => 147
    else if s < 96 then
      match s case 84 => 147 case 85 => 147 case 86 => 147 case 87 => 147 case 88 => 147 case 89 => 147 case 90 => 147
        case 91 => 147 case 92 => 147 case 93 => 147 case 94 => 147 case _ => 147
    else if s < 108 then
      match s case 96 => 147 case 97 => 147 case 98 => 147 case 99 => 147 case 100 => 147 case 101 => 147
        case 102 => 147 case 103 => 147 case 104 => 147 case 105 => 147 case 106 => 147 case _ => 147
    else if s < 120 then
      match s case 108 => 147 case 109 => 147 case 110 => 147 case 111 => 147 case 112 => 147 case 113 => 147
        case 114 => 147 case 115 => 147 case 116 => 147 case 117 => 147 case 118 => 147 case _ => 147
    else if s < 132 then
      match s case 120 => 147 case 121 => 147 case 122 => 147 case 123 => 147 case 124 => 147 case 125 => 147
        case 126 => 147 case 127 => 147 case 128 => 147 case 129 => 147 case 130 => 147 case _ => 147
    else if s < 144 then
      match s case 132 => 147 case 133 => 147 case 134 => 147 case 135 => 147 case 136 => 147 case 137 => 147
        case 138 => 147 case 139 => 147 case 140 => 147 case 141 => 147 case 142 => 147 case _ => 147
    else
      match s case 144 => 147 case 145 => 147 case 146 => 147 case 147 => 0 case 148 => 147 case 149 => 147
        case 150 => 147 case 151 => 147 case 152 => 147 case 153 => 147 case 154 => 147 case _ => 147
  }

  // yy_nxt: the successor states.
  function Nxt(i: int): nat
    requires 0 <= i < 214
  {
    if i < 12 then
      match i case 0 => 0 case 1 => 10 case 2 => 11 case 3 => 12 case 4 => 13 case 5 => 14 case 6 => 10 case 7 => 10
        case 8 => 15 case 9 => 16 case 10 => 10 case _ => 10
    else if i < 24 then
      match i case 12 => 10 case 13 => 17 case 14 => 18 case 15 => 10 case 16 => 10 case 17 => 19 case 18 => 20
        case 19 => 10 case 20 => 21 case 21 => 10 case 22 => 22 case _ => 23
    else if i < 36 then
      match i case 24 => 24 case 25 => 10 case 26 => 25 case 27 => 10 case 28 => 27 case 29 => 27 case 30 => 28
        case 31 => 28 case 32 => 30 case 33 => 31 case 34 => 30 case _ => 31
    else if i < 48 then
      match i case 36 => 33 case 37 => 39 case 38 => 33 case 39 => 49 case 40 => 42 case 41 => 51 case 42 => 58
        case 43 => 146 case 44 => 43 case 45 => 63 case 46 => 147 case _ => 40
    else if i < 60 then
      match i case 48 => 44 case 49 => 64 case 50 => 41 case 51 => 71 case 52 => 50 case 53 => 45 case 54 => 72
        case 55 => 58 case 56 => 52 case 57 => 73 case 58 => 145 case _ => 34
    else if i < 72 then
      match i case 60 => 35 case 61 => 34 case 62 => 35 case 63 => 77 case 64 => 59 case 65 => 78 case 66 => 144
        case 67 => 143 case 68 => 147 case 69 => 142 case 70 => 141 case _ => 140
    else if i < 84 then
      match i case 72 => 139 case 73 => 138 case 74 => 137 case 75 => 136 case 76 => 135 case 77 => 147 case 78 => 26
        case 79 => 26 case 80 => 26 case 81 => 26 case 82 => 26 case _ => 29
    else if i < 96 then
      match i case 84 => 29 case 85 => 29 case 86 => 29 case 87 => 29 case 88 => 32 case 89 => 32 case 90 => 32
        case 91 => 32 case 92 => 32 case 93 => 37 case 94 => 134 case _ => 37
    else if i < 108 then
      match i case 96 => 37 case 97 => 37 case 98 => 56 case 99 => 133 case 100 => 56 case 101 => 132 case 102 => 56
        case 103 => 57 case 104 => 131 case 105 => 57 case 106 => 57 case _ => 57
    else if i < 120 then
      match i case 108 => 60 case 109 => 130 case 110 => 129 case 111 => 60 case 112 => 60 case 113 => 61
        case 114 => 128 case 115 => 61 case 116 => 61 case 117 => 127 case 118 => 126 case _ => 125
    else if i < 132 then
      match i case 120 => 124 case 121 => 123 case 122 => 122 case 123 => 121 case 124 => 120 case 125 => 119
        case 126 => 118 case 127 => 117 case 128 => 116 case 129 => 115 case 130 => 114 case _ => 113
    else if i < 144 then
      match i case 132 => 112 case 133 => 111 case 134 => 110 case 135 => 109 case 136 => 108 case 137 => 107
        case 138 => 106 case 139 => 105 case 140 => 104 case 141 => 103 case 142 => 102 case _ => 101
    else if i < 156 then
      match i case 144 => 100 case 145 => 99 case 146 => 98 case 147 => 97 case 148 => 96 case 149 => 95
        case 150 => 94 case 151 => 93 case 152 => 92 case 153 => 91 case 154 => 90 case _ => 89
    else if i < 168 then
      match i case 156 => 88 case 157 => 87 case 158 => 86 case 159 => 85 case 160 => 84 case 161 => 83 case 162 => 82
        case 163 => 81 case 164 => 80 case 165 => 79 case 166 => 76 case _ => 75
    else if i < 180 then
      match i case 168 => 74 case 169 => 70 case 170 => 69 case 171 => 68 case 172 => 67 case 173 => 66 case 174 => 65
        case 175 => 62 case 176 => 36 case 177 => 55 case 178 => 54 case _ => 53
    else if i < 192 then
      match i case 180 => 48 case 181 => 47 case 182 => 46 case 183 => 38 case 184 => 36 case 185 => 147 case 186 => 9
        case 187 => 147 case 188 => 147 case 189 => 147 case 190 => 147 case _ => 147
    else if i < 204 then
      match i case 192 => 147 case 193 => 147 case 194 => 147 case 195 => 147 case 196 => 147 case 197 => 147
        case 198 => 147 case 199 => 147 case 200 => 147 case 201 => 147 case 202 => 147 case _ => 147
    else
      match i case 204 => 147 case 205 => 147 case 206 => 147 case 207 => 147 case 208 => 147 case 209 => 147
        case 210 => 147 case 211 => 147 case 212 => 147 case _ => 147
  }

  // yy_chk: the owner of an entry of Nxt.
  function Chk(i: int): nat
    requires 0 <= i < 214
  {
    if i < 12 then
      match i case 0 => 0 case 1 => 1 case 2 => 1 case 3 => 1 case 4 => 1 case 5 => 1 case 6 => 1 case 7 => 1
        case 8 => 1 case 9 => 1 case 10 => 1 case _ => 1
    else if i < 24 then
      match i case 12 => 1 case 13 => 1 case 14 => 1 case 15 => 1 case 16 => 1 case 17 => 1 case 18 => 1 case 19 => 1
        case 20 => 1 case 21 => 1 case 22 => 1 case _ => 1
    else if i < 36 then
      match i case 24 => 1 case 25 => 1 case 26 => 1 case 27 => 1 case 28 => 3 case 29 => 4 case 30 => 3 case 31 => 4
        case 32 => 5 case 33 => 5 case 34 => 6 case _ => 6
    else if i < 48 then
      match i case 36 => 7 case 37 => 15 case 38 => 8 case 39 => 20 case 40 => 16 case 41 => 21 case 42 => 28
        case 43 => 145 case 44 => 16 case 45 => 40 case 46 => 57 case _ => 15
    else if i < 60 then
      match i case 48 => 16 case 49 => 40 case 50 => 15 case 51 => 47 case 52 => 20 case 53 => 16 case 54 => 47
        case 55 => 58 case 56 => 21 case 57 => 47 case 58 => 141 case _ => 7
    else if i < 72 then
      match i case 60 => 7 case 61 => 8 case 62 => 8 case 63 => 51 case 64 => 28 case 65 => 51 case 66 => 140
        case 67 => 139 case 68 => 57 case 69 => 138 case 70 => 137 case _ => 133
    else if i < 84 then
      match i case 72 => 132 case 73 => 130 case 74 => 129 case 75 => 127 case 76 => 124 case 77 => 58 case 78 => 148
        case 79 => 148 case 80 => 148 case 81 => 148 case 82 => 148 case _ => 149
    else if i < 96 then
      match i case 84 => 149 case 85 => 149 case 86 => 149 case 87 => 149 case 88 => 150 case 89 => 150 case 90 => 150
        case 91 => 150 case 92 => 150 case 93 => 151 case 94 => 122 case _ => 151
    else if i < 108 then
      match i case 96 => 151 case 97 => 151 case 98 => 152 case 99 => 121 case 100 => 152 case 101 => 120
        case 102 => 152 case 103 => 153 case 104 => 119 case 105 => 153 case 106 => 153 case _ => 153
    else if i < 120 then
      match i case 108 => 154 case 109 => 118 case 110 => 117 case 111 => 154 case 112 => 154 case 113 => 155
        case 114 => 116 case 115 => 155 case 116 => 155 case 117 => 115 case 118 => 114 case _ => 113
    else if i < 132 then
      match i case 120 => 112 case 121 => 111 case 122 => 110 case 123 => 109 case 124 => 107 case 125 => 106
        case 126 => 104 case 127 => 101 case 128 => 100 case 129 => 99 case 130 => 98 case _ => 97
    else if i < 144 then
      match i case 132 => 92 case 133 => 91 case 134 => 90 case 135 => 89 case 136 => 88 case 137 => 86 case 138 => 85
        case 139 => 84 case 140 => 83 case 141 => 82 case 142 => 81 case _ => 80
    else if i < 156 then
      match i case 144 => 79 case 145 => 78 case 146 => 77 case 147 => 76 case 148 => 75 case 149 => 74 case 150 => 73
        case 151 => 72 case 152 => 71 case 153 => 70 case 154 => 69 case _ => 68
    else if i < 168 then
      match i case 156 => 67 case 157 => 66 case 158 => 65 case 159 => 64 case 160 => 63 case 161 => 62 case 162 => 55
        case 163 => 54 case 164 => 53 case 165 => 52 case 166 => 50 case _ => 49
    else if i < 180 then
      match i case 168 => 48 case 169 => 46 case 170 => 45 case 171 => 44 case 172 => 43 case 173 => 42 case 174 => 41
        case 175 => 39 case 176 => 36 case 177 => 24 case 178 => 23 case _ => 22
    else if i < 192 then
      match i case 180 => 19 case 181 => 18 case 182 => 17 case 183 => 14 case 184 => 11 case 185 => 9 case 186 => 147
        case 187 => 147 case 188 => 147 case 189 => 147 case 190 => 147 case _ => 147
    else if i < 204 then
      match i case 192 => 147 case 193 => 147 case 194 => 147 case 195 => 147 case 196 => 147 case 197 => 147
        case 198 => 147 case 199 => 147 case 200 => 147 case 201 => 147 case 202 => 147 case _ => 147
    else
      match i case 204 => 147 case 205 => 147 case 206 => 147 case 207 => 147 case 208 => 147 case 209 => 147
        case 210 => 147 case 211 => 147 case 212 => 147 case _ => 147
  }
}
