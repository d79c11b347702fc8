/** The tables of the Silas scanner, entry by entry
    (build-mpi/SilasConfigScanner.cc). */
module SilasScannerTables {
  const JAM: nat := 133        // no transition is possible any more
  const EOB_STATE: nat := 5   // entered on an end-of-buffer character
  const END_OF_BUFFER: nat := 27 // YY_END_OF_BUFFER
  const CLASSES: nat := 35
  const ROWS: nat := 138
  const ENTRIES: nat := 206

  // yy_accept: the rule matched in a state, 0 if none.
  function Accept(s: int): nat
    requires 0 <= s < 134
  {
    if s < 12 then
      match s case 0 => 0 case 1 => 0 case 2 => 0 case 3 => 0 case 4 => 0 case 5 => 27 case 6 => 25 case 7 => 2
        case 8 => 1 case 9 => 25 case 10 => 8 case _ => 3
    else if s < 24 then
      match s case 12 => 25 case 13 => 5 case 14 => 4 case 15 => 25 case 16 => 4 case 17 => 25 case 18 => 9
        case 19 => 10 case 20 => 11 case 21 => 2 case 22 => 4 case _ => 3
    else if s < 36 then
      match s case 24 => 6 case 25 => 7 case 26 => 5 case 27 => 0 case 28 => 0 case 29 => 9 case 30 => 6 case 31 => 7
        case 32 => 0 case 33 => 7 case 34 => 0 case _ => 0
    else if s < 48 then
      match s case 36 => 0 case 37 => 0 case 38 => 0 case 39 => 0 case 40 => 0 case 41 => 0 case 42 => 0 case 43 => 0
        case 44 => 0 case 45 => 0 case 46 => 0 case _ => 0
    else if s < 60 then
      match s case 48 => 0 case 49 => 0 case 50 => 0 case 51 => 0 case 52 => 0 case 53 => 0 case 54 => 0 case 55 => 0
        case 56 => 0 case 57 => 0 case 58 => 0 case _ => 0
    else if s < 72 then
      match s case 60 => 13 case 61 => 0 case 62 => 0 case 63 => 0 case 64 => 0 case 65 => 0 case 66 => 0 case 67 => 0
        case 68 => 0 case 69 => 0 case 70 => 19 case _ => 0
    else if s < 84 then
      match s case 72 => 0 case 73 => 0 case 74 => 0 case 75 => 0 case 76 => 0 case 77 => 0 case 78 => 0 case 79 => 0
        case 80 => 18 case 81 => 0 case 82 => 0 case _ => 0
    else if s < 96 then
      match s case 84 => 0 case 85 => 0 case 86 => 15 case 87 => 0 case 88 => 0 case 89 => 0 case 90 => 17
        case 91 => 0 case 92 => 0 case 93 => 0 case 94 => 0 case _ => 0
    else if s < 108 then
      match s case 96 => 0 case 97 => 20 case 98 => 16 case 99 => 0 case 100 => 0 case 101 => 12 case 102 => 0
        case 103 => 14 case 104 => 0 case 105 => 0 case 106 => 0 case _ => 0
    else if s < 120 then
      match s case 108 => 0 case 109 => 0 case 110 => 0 case 111 => 0 case 112 => 0 case 113 => 0 case 114 => 0
        case 115 => 0 case 116 => 0 case 117 => 0 case 118 => 0 case _ => 0
    else if s < 132 then
      match s case 120 => 0 case 121 => 0 case 122 => 0 case 123 => 0 case 124 => 0 case 125 => 0 case 126 => 0
        case 127 => 24 case 128 => 0 case 129 => 0 case 130 => 21 case _ => 22
    else
      match s case 132 => 23 case _ => 0
  }

  // yy_ec: the equivalence class of a byte.
  function Ec(b: int): nat
    requires 0 <= b < 256
  {
    match b
    case 0 => 0 case 9 => 2 case 11 => 2 case 12 => 2 case 13 => 2 case 32 => 2 case 10 => 3 case 33 => 4 case 34 => 5
    case 35 => 6 case 43 => 7 case 45 => 7 case 46 => 8 case 48 => 9 case 49 => 9 case 50 => 9 case 51 => 9
    case 52 => 9 case 53 => 9 case 54 => 9 case 55 => 9 case 56 => 9 case 57 => 9 case 60 => 10 case 61 => 11
    case 62 => 12 case 65 => 13 case 66 => 14 case 67 => 15 case 68 => 16 case 69 => 17 case 71 => 18 case 72 => 19
    case 73 => 20 case 75 => 21 case 76 => 22 case 77 => 23 case 78 => 24 case 79 => 25 case 80 => 26 case 82 => 27
    case 83 => 28 case 84 => 29 case 85 => 30 case 86 => 31 case 90 => 32 case 95 => 33 case 101 => 34
    case _ => 1
  }

  // yy_meta: the class of a class, for the template rows.
  function Meta(c: int): nat
    requires 0 <= c < 35
  {
    if c < 14 then
      match c case 0 => 0 case 1 => 1 case 2 => 1 case 3 => 2 case 4 => 1 case 5 => 3 case 6 => 1 case 7 => 1
        case 8 => 1 case 9 => 1 case 10 => 1 case 11 => 1 case 12 => 1 case _ => 1
    else if c < 28 then
      match c case 14 => 1 case 15 => 1 case 16 => 1 case 17 => 1 case 18 => 1 case 19 => 1 case 20 => 1 case 21 => 1
        case 22 => 1 case 23 => 1 case 24 => 1 case 25 => 1 case 26 => 1 case _ => 1
    else
      match c case 28 => 1 case 29 => 1 case 30 => 1 case 31 => 1 case 32 => 1 case 33 => 1 case _ => 1
  }

  // yy_base: where the row of a state starts in Nxt and Chk.
  function Base(s: int): nat
    requires 0 <= s < 138
  {
    if s < 12 then
      match s case 0 => 0 case 1 => 0 case 2 => 27 case 3 => 10 case 4 => 11 case 5 => 170 case 6 => 171 case 7 => 167
        case 8 => 171 case 9 => 157 case 10 => 171 case _ => 0
    else if s < 24 then
      match s case 12 => 158 case 13 => 9 case 14 => 155 case 15 => 154 case 16 => 153 case 17 => 148 case 18 => 0
        case 19 => 171 case 20 => 171 case 21 => 160 case 22 => 171 case _ => 0
    else if s < 36 then
      match s case 24 => 32 case 25 => 10 case 26 => 37 case 27 => 13 case 28 => 128 case 29 => 0 case 30 => 39
        case 31 => 33 case 32 => 151 case 33 => 150 case 34 => 61 case _ => 140
    else if s < 48 then
      match s case 36 => 144 case 37 => 126 case 38 => 139 case 39 => 34 case 40 => 129 case 41 => 127 case 42 => 135
        case 43 => 37 case 44 => 138 case 45 => 132 case 46 => 127 case _ => 119
    else if s < 60 then
      match s case 48 => 125 case 49 => 118 case 50 => 129 case 51 => 119 case 52 => 114 case 53 => 124 case 54 => 128
        case 55 => 108 case 56 => 119 case 57 => 120 case 58 => 110 case _ => 123
    else if s < 72 then
      match s case 60 => 171 case 61 => 118 case 62 => 106 case 63 => 116 case 64 => 106 case 65 => 111 case 66 => 110
        case 67 => 107 case 68 => 111 case 69 => 101 case 70 => 171 case _ => 109
    else if s < 84 then
      match s case 72 => 101 case 73 => 91 case 74 => 110 case 75 => 100 case 76 => 88 case 77 => 95 case 78 => 94
        case 79 => 101 case 80 => 171 case 81 => 84 case 82 => 98 case _ => 100
    else if s < 96 then
      match s case 84 => 89 case 85 => 95 case 86 => 171 case 87 => 83 case 88 => 87 case 89 => 86 case 90 => 171
        case 91 => 80 case 92 => 95 case 93 => 90 case 94 => 75 case _ => 88
    else if s < 108 then
      match s case 96 => 85 case 97 => 171 case 98 => 171 case 99 => 84 case 100 => 73 case 101 => 171 case 102 => 84
        case 103 => 171 case 104 => 73 case 105 => 71 case 106 => 70 case _ => 56
    else if s < 120 then
      match s case 108 => 65 case 109 => 63 case 110 => 46 case 111 => 59 case 112 => 49 case 113 => 44 case 114 => 50
        case 115 => 52 case 116 => 49 case 117 => 46 case 118 => 48 case _ => 50
    else if s < 132 then
      match s case 120 => 37 case 121 => 36 case 122 => 38 case 123 => 37 case 124 => 13 case 125 => 3 case 126 => 7
        case 127 => 171 case 128 => 7 case 129 => 5 case 130 => 171 case _ => 171
    else
      match s case 132 => 171 case 133 => 171 case 134 => 90 case 135 => 93 case 136 => 96 case _ => 0
  }

  // yy_def: the row to fall back to.
  function Def(s: int): nat
    requires 0 <= s < 138
  {
    if s < 12 then
      match s case 0 => 0 case 1 => 134 case 2 => 134 case 3 => 135 case 4 => 135 case 5 => 133 case 6 => 133
        case 7 => 133 case 8 => 133 case 9 => 133 case 10 => 133 case _ => 136
    else if s < 24 then
      match s case 12 => 133 case 13 => 133 case 14 => 133 case 15 => 133 case 16 => 133 case 17 => 133 case 18 => 137
        case 19 => 133 case 20 => 133 case 21 => 133 case 22 => 133 case _ => 136
    else if s < 36 then
      match s case 24 => 133 case 25 => 133 case 26 => 133 case 27 => 133 case 28 => 133 case 29 => 137 case 30 => 133
        case 31 => 133 case 32 => 133 case 33 => 133 case 34 => 133 case _ => 133
    else if s < 48 then
      match s case 36 => 133 case 37 => 133 case 38 => 133 case 39 => 133 case 40 => 133 case 41 => 133 case 42 => 133
        case 43 => 133 case 44 => 133 case 45 => 133 case 46 => 133 case _ => 133
    else if s < 60 then
      match s case 48 => 133 case 49 => 133 case 50 => 133 case 51 => 133 case 52 => 133 case 53 => 133 case 54 => 133
        case 55 => 133 case 56 => 133 case 57 => 133 case 58 => 133 case _ => 133
    else if s < 72 then
      match s case 60 => 133 case 61 => 133 case 62 => 133 case 63 => 133 case 64 => 133 case 65 => 133 case 66 => 133
        case 67 => 133 case 68 => 133 case 69 => 133 case 70 => 133 case _ => 133
    else if s < 84 then
      match s case 72 => 133 case 73 => 133 case 74 => 133 case 75 => 133 case 76 => 133 case 77 => 133 case 78 => 133
        case 79 => 133 case 80 => 133 case 81 => 133 case 82 => 133 case _ => 133
    else if s < 96 then
      match s case 84 => 133 case 85 => 133 case 86 => 133 case 87 => 133 case 88 => 133 case 89 => 133 case 90 => 133
        case 91 => 133 case 92 => 133 case 93 => 133 case 94 => 133 case _ => 133
    else if s < 108 then
      match s case 96 => 133 case 97 => 133 case 98 => 133 case 99 => 133 case 100 => 133 case 101 => 133
        case 102 => 133 case 103 => 133 case 104 => 133 case 105 => 133 case 106 => 133 case _ => 133
    else if s < 120 then
      match s case 108 => 133 case 109 => 133 case 110 => 133 case 111 => 133 case 112 => 133 case 113 => 133
        case 114 => 133 case 115 => 133 case 116 => 133 case 117 => 133 case 118 => 133 case _ => 133
    else if s < 132 then
      match s case 120 => 133 case 121 => 133 case 122 => 133 case 123 => 133 case 124 => 133 case 125 => 133
        case 126 => 133 case 127 => 133 case 128 => 133 case 129 => 133 case 130 => 133 case _ => 133
    else
      match s case 132 => 133 case 133 => 0 case 134 => 133 case 135 => 133 case 136 => 133 case _ => 133
  }

  // yy_nxt: the successor states.
  function Nxt(i: int): nat
    requires 0 <= i < 206
  {
    if i < 12 then
      match i case 0 => 0 case 1 => 29 case 2 => 7 case 3 => 8 case 4 => 9 case 5 => 10 case 6 => 11 case 7 => 12
        case 8 => 133 case 9 => 13 case 10 => 14 case _ => 15
    else if i < 24 then
      match i case 12 => 16 case 13 => 19 case 14 => 19 case 15 => 20 case 16 => 20 case 17 => 25 case 18 => 26
        case 19 => 31 case 20 => 32 case 21 => 132 case 22 => 33 case _ => 131
    else if i < 36 then
      match i case 24 => 130 case 25 => 129 case 26 => 27 case 27 => 27 case 28 => 17 case 29 => 7 case 30 => 8
        case 31 => 9 case 32 => 10 case 33 => 11 case 34 => 12 case _ => 128
    else if i < 48 then
      match i case 36 => 13 case 37 => 14 case 38 => 15 case 39 => 16 case 40 => 25 case 41 => 30 case 42 => 31
        case 43 => 27 case 44 => 27 case 45 => 25 case 46 => 26 case _ => 25
    else if i < 60 then
      match i case 48 => 30 case 49 => 27 case 50 => 27 case 51 => 49 case 52 => 54 case 53 => 127 case 54 => 27
        case 55 => 17 case 56 => 27 case 57 => 55 case 58 => 56 case _ => 50
    else if i < 72 then
      match i case 60 => 126 case 61 => 125 case 62 => 124 case 63 => 123 case 64 => 122 case 65 => 121 case 66 => 27
        case 67 => 27 case 68 => 120 case 69 => 119 case 70 => 118 case _ => 27
    else if i < 84 then
      match i case 72 => 117 case 73 => 27 case 74 => 35 case 75 => 36 case 76 => 37 case 77 => 116 case 78 => 115
        case 79 => 114 case 80 => 113 case 81 => 38 case 82 => 112 case _ => 111
    else if i < 96 then
      match i case 84 => 39 case 85 => 40 case 86 => 41 case 87 => 110 case 88 => 42 case 89 => 43 case 90 => 44
        case 91 => 6 case 92 => 6 case 93 => 6 case 94 => 18 case _ => 18
    else if i < 108 then
      match i case 96 => 18 case 97 => 23 case 98 => 109 case 99 => 23 case 100 => 108 case 101 => 107 case 102 => 106
        case 103 => 105 case 104 => 104 case 105 => 103 case 106 => 102 case _ => 101
    else if i < 120 then
      match i case 108 => 100 case 109 => 99 case 110 => 98 case 111 => 97 case 112 => 96 case 113 => 95
        case 114 => 94 case 115 => 93 case 116 => 92 case 117 => 91 case 118 => 90 case _ => 89
    else if i < 132 then
      match i case 120 => 88 case 121 => 87 case 122 => 86 case 123 => 85 case 124 => 84 case 125 => 83 case 126 => 82
        case 127 => 81 case 128 => 80 case 129 => 79 case 130 => 78 case _ => 77
    else if i < 144 then
      match i case 132 => 76 case 133 => 75 case 134 => 74 case 135 => 73 case 136 => 72 case 137 => 71 case 138 => 70
        case 139 => 69 case 140 => 68 case 141 => 67 case 142 => 66 case _ => 65
    else if i < 156 then
      match i case 144 => 64 case 145 => 63 case 146 => 62 case 147 => 61 case 148 => 60 case 149 => 59 case 150 => 58
        case 151 => 57 case 152 => 53 case 153 => 52 case 154 => 51 case _ => 48
    else if i < 168 then
      match i case 156 => 47 case 157 => 46 case 158 => 45 case 159 => 33 case 160 => 33 case 161 => 34 case 162 => 21
        case 163 => 28 case 164 => 22 case 165 => 22 case 166 => 22 case _ => 24
    else if i < 180 then
      match i case 168 => 22 case 169 => 21 case 170 => 133 case 171 => 5 case 172 => 133 case 173 => 133
        case 174 => 133 case 175 => 133 case 176 => 133 case 177 => 133 case 178 => 133 case _ => 133
    else if i < 192 then
      match i case 180 => 133 case 181 => 133 case 182 => 133 case 183 => 133 case 184 => 133 case 185 => 133
        case 186 => 133 case 187 => 133 case 188 => 133 case 189 => 133 case 190 => 133 case _ => 133
    else if i < 204 then
      match i case 192 => 133 case 193 => 133 case 194 => 133 case 195 => 133 case 196 => 133 case 197 => 133
        case 198 => 133 case 199 => 133 case 200 => 133 case 201 => 133 case 202 => 133 case _ => 133
    else
      match i case 204 => 133 case _ => 133
  }

  // yy_chk: the owner of an entry of Nxt.
  function Chk(i: int): nat
    requires 0 <= i < 206
  {
    if i < 12 then
      match i case 0 => 0 case 1 => 137 case 2 => 1 case 3 => 1 case 4 => 1 case 5 => 1 case 6 => 1 case 7 => 1
        case 8 => 0 case 9 => 1 case 10 => 1 case _ => 1
    else if i < 24 then
      match i case 12 => 1 case 13 => 3 case 14 => 4 case 15 => 3 case 16 => 4 case 17 => 13 case 18 => 13
        case 19 => 25 case 20 => 27 case 21 => 129 case 22 => 27 case _ => 128
    else if i < 36 then
      match i case 24 => 126 case 25 => 125 case 26 => 13 case 27 => 25 case 28 => 1 case 29 => 2 case 30 => 2
        case 31 => 2 case 32 => 2 case 33 => 2 case 34 => 2 case _ => 124
    else if i < 48 then
      match i case 36 => 2 case 37 => 2 case 38 => 2 case 39 => 2 case 40 => 24 case 41 => 24 case 42 => 31
        case 43 => 13 case 44 => 25 case 45 => 26 case 46 => 26 case _ => 30
    else if i < 60 then
      match i case 48 => 30 case 49 => 24 case 50 => 31 case 51 => 39 case 52 => 43 case 53 => 123 case 54 => 26
        case 55 => 2 case 56 => 30 case 57 => 43 case 58 => 43 case _ => 39
    else if i < 72 then
      match i case 60 => 122 case 61 => 121 case 62 => 120 case 63 => 119 case 64 => 118 case 65 => 117 case 66 => 24
        case 67 => 31 case 68 => 116 case 69 => 115 case 70 => 114 case _ => 26
    else if i < 84 then
      match i case 72 => 113 case 73 => 30 case 74 => 34 case 75 => 34 case 76 => 34 case 77 => 112 case 78 => 111
        case 79 => 110 case 80 => 109 case 81 => 34 case 82 => 108 case _ => 107
    else if i < 96 then
      match i case 84 => 34 case 85 => 34 case 86 => 34 case 87 => 106 case 88 => 34 case 89 => 34 case 90 => 34
        case 91 => 134 case 92 => 134 case 93 => 134 case 94 => 135 case _ => 135
    else if i < 108 then
      match i case 96 => 135 case 97 => 136 case 98 => 105 case 99 => 136 case 100 => 104 case 101 => 102
        case 102 => 100 case 103 => 99 case 104 => 96 case 105 => 95 case 106 => 94 case _ => 93
    else if i < 120 then
      match i case 108 => 92 case 109 => 91 case 110 => 89 case 111 => 88 case 112 => 87 case 113 => 85 case 114 => 84
        case 115 => 83 case 116 => 82 case 117 => 81 case 118 => 79 case _ => 78
    else if i < 132 then
      match i case 120 => 77 case 121 => 76 case 122 => 75 case 123 => 74 case 124 => 73 case 125 => 72 case 126 => 71
        case 127 => 69 case 128 => 68 case 129 => 67 case 130 => 66 case _ => 65
    else if i < 144 then
      match i case 132 => 64 case 133 => 63 case 134 => 62 case 135 => 61 case 136 => 59 case 137 => 58 case 138 => 57
        case 139 => 56 case 140 => 55 case 141 => 54 case 142 => 53 case _ => 52
    else if i < 156 then
      match i case 144 => 51 case 145 => 50 case 146 => 49 case 147 => 48 case 148 => 47 case 149 => 46 case 150 => 45
        case 151 => 44 case 152 => 42 case 153 => 41 case 154 => 40 case _ => 38
    else if i < 168 then
      match i case 156 => 37 case 157 => 36 case 158 => 35 case 159 => 33 case 160 => 32 case 161 => 28 case 162 => 21
        case 163 => 17 case 164 => 16 case 165 => 15 case 166 => 14 case _ => 12
    else if i < 180 then
      match i case 168 => 9 case 169 => 7 case 170 => 5 case 171 => 133 case 172 => 133 case 173 => 133
        case 174 => 133 case 175 => 133 case 176 => 133 case 177 => 133 case 178 => 133 case _ => 133
    else if i < 192 then
      match i case 180 => 133 case 181 => 133 case 182 => 133 case 183 => 133 case 184 => 133 case 185 => 133
        case 186 => 133 case 187 => 133 case 188 => 133 case 189 => 133 case 190 => 133 case _ => 133
    else if i < 204 then
      match i case 192 => 133 case 193 => 133 case 194 => 133 case 195 => 133 case 196 => 133 case 197 => 133
        case 198 => 133 case 199 => 133 case 200 => 133 case 201 => 133 case 202 => 133 case _ => 133
    else
      match i case 204 => 133 case _ => 133
  }
}
